/** The ranking shared by the `search` page (explorer/views.py) and the
    `api_search` endpoint (explorer/api_views.py): score every indexed file
    against the query, keep those above a threshold, sort them by relevance
    (highest first, ties in input order, as Python's stable `list.sort`
    with `reverse=True` does) and keep the first 100. */
module Ranking {
  import opened Strings
  import SmartSearch
  import YandexDisk

  /** The fields of a `FileIndex` row that the ranking reads. */
  datatype IndexedFile = IndexedFile(name: string, path: string, size: int)

  /** One search hit: the file's name, the folder it sits in (for display),
      its full path, its size and its relevance. */
  datatype ScoredResult = ScoredResult(name: string, displayPath: string, fullPath: string, size: int, relevance: real)

  /** At most this many results are returned. */
  const ResultLimit: nat := 100

  /** The title shown for a file directly in the root folder. */
  const RootFolderTitle: string := "Корневая папка"

  // ---------------------------------------------------------------------
  // Display path

  /** The folder part of a relative path, for display: its `/`-segments but
      the last, joined by " / "; the root-folder title when there is only one. */
  function DisplayPath(relative: string): string {
    var parts := Split(relative, '/');
    if |parts| > 1 then Join(parts[..|parts| - 1], " / ") else RootFolderTitle
  }

  /** A path without `/` lies in the root folder. */
  lemma {:induction false} DisplayPathRoot(relative: string)
    requires '/' !in relative
    ensures DisplayPath(relative) == RootFolderTitle
  {
    SplitSingle(relative, '/');
  }

  /** A path with a `/` is its folder part, a `/`, and a file name without
      `/`; the display path is that folder part with every `/` widened to
      " / ". */
  lemma {:induction false} DisplayPathFolders(relative: string)
    requires '/' in relative
    ensures var parts := Split(relative, '/');
            var folders := parts[..|parts| - 1];
            relative == Join(folders, "/") + "/" + parts[|parts| - 1]
            && '/' !in parts[|parts| - 1]
            && DisplayPath(relative) == Join(folders, " / ")
  {
    SplitSingle(relative, '/');
    var parts := Split(relative, '/');
    JoinSplit(relative, '/');
    JoinLast(parts, "/");
    SplitPieces(relative, '/');
  }

  // ---------------------------------------------------------------------
  // Scoring

  /** A relevance function of file names, for one query. */
  type Scorer = string -> real

  /** `SmartSearch.smart_search(query, name)` as a function of the name. */
  function RelevanceTo(ratio: SmartSearch.Ratio, query: string): Scorer {
    (name: string) => SmartSearch.Relevance(ratio, query, name)
  }

  /** The result record built for a file that passed the threshold. */
  function ResultFor(root: string, f: IndexedFile, relevance: real): ScoredResult {
    ScoredResult(f.name, DisplayPath(YandexDisk.RelativePath(f.path, root)), f.path, f.size, relevance)
  }

  /** The files whose relevance exceeds `threshold`, as result records, in
      input order. */
  function Scored(score: Scorer, root: string, threshold: real, files: seq<IndexedFile>)
    : seq<ScoredResult>
    decreases |files|
  {
    if files == [] then []
    else
      var n := |files| - 1;
      var relevance := score(files[n].name);
      Scored(score, root, threshold, files[..n])
        + (if relevance > threshold then [ResultFor(root, files[n], relevance)] else [])
  }

  /** Every scored record is built from one of the files, whose relevance
      exceeds the threshold. */
  lemma {:induction false} ScoredSound(score: Scorer, root: string, threshold: real,
                                       files: seq<IndexedFile>, r: ScoredResult)
    requires r in Scored(score, root, threshold, files)
    ensures exists f :: f in files && score(f.name) > threshold && r == ResultFor(root, f, score(f.name))
    decreases |files|
  {
    var n := |files| - 1;
    var f := files[n];
    assert f in files;
    if r in Scored(score, root, threshold, files[..n]) {
      ScoredSound(score, root, threshold, files[..n], r);
      var g :| g in files[..n] && score(g.name) > threshold && r == ResultFor(root, g, score(g.name));
      assert g in files;
    } else {
      assert r == ResultFor(root, f, score(f.name));
    }
  }

  /** Every file whose relevance exceeds the threshold is scored. */
  lemma {:induction false} ScoredComplete(score: Scorer, root: string, threshold: real,
                                          files: seq<IndexedFile>, f: IndexedFile)
    requires f in files && score(f.name) > threshold
    ensures ResultFor(root, f, score(f.name)) in Scored(score, root, threshold, files)
    decreases |files|
  {
    var n := |files| - 1;
    if f != files[n] {
      assert files == files[..n] + [files[n]];
      assert f in files[..n];
      ScoredComplete(score, root, threshold, files[..n], f);
    }
  }

  /** Every scored record has a relevance above the threshold. */
  lemma {:induction false} ScoredAboveThreshold(score: Scorer, root: string, threshold: real,
                                                files: seq<IndexedFile>)
    ensures forall r :: r in Scored(score, root, threshold, files) ==> threshold < r.relevance
    decreases |files|
  {
    if files != [] {
      ScoredAboveThreshold(score, root, threshold, files[..|files| - 1]);
    }
  }

  // ---------------------------------------------------------------------
  // Stable sort by relevance, highest first

  /** Inserts `x` before the first record whose relevance is not above its own. */
  function Insert(x: ScoredResult, s: seq<ScoredResult>): seq<ScoredResult>
    decreases |s|
  {
    if s == [] || s[0].relevance <= x.relevance then [x] + s
    else [s[0]] + Insert(x, s[1..])
  }

  /** `list.sort(key=relevance, reverse=True)`, as an insertion sort. */
  function SortByRelevance(s: seq<ScoredResult>): seq<ScoredResult>
    decreases |s|
  {
    if s == [] then [] else Insert(s[0], SortByRelevance(s[1..]))
  }

  predicate NonIncreasing(s: seq<ScoredResult>) {
    forall i, j :: 0 <= i < j < |s| ==> s[i].relevance >= s[j].relevance
  }

  /** The records of relevance `v`, in order. */
  function WithRelevance(s: seq<ScoredResult>, v: real): seq<ScoredResult>
    decreases |s|
  {
    if s == [] then [] else Matching(s[0], v) + WithRelevance(s[1..], v)
  }

  lemma {:induction false} InsertPermutes(x: ScoredResult, s: seq<ScoredResult>)
    ensures multiset(Insert(x, s)) == multiset(s) + multiset{x}
    decreases |s|
  {
    if s != [] && s[0].relevance > x.relevance {
      InsertPermutes(x, s[1..]);
      assert s == [s[0]] + s[1..];
    }
  }

  lemma {:induction false} InsertSorted(x: ScoredResult, s: seq<ScoredResult>)
    requires NonIncreasing(s)
    ensures NonIncreasing(Insert(x, s))
    decreases |s|
  {
    if s != [] && s[0].relevance > x.relevance {
      var tail := Insert(x, s[1..]);
      InsertSorted(x, s[1..]);
      InsertPermutes(x, s[1..]);
      forall k | 0 <= k < |tail| ensures tail[k].relevance <= s[0].relevance {
        assert tail[k] in multiset(tail);
        if tail[k] != x {
          assert tail[k] in multiset(s[1..]);
          var m :| 0 <= m < |s[1..]| && s[1..][m] == tail[k];
          assert s[m + 1] == tail[k];
        }
      }
      assert Insert(x, s) == [s[0]] + tail;
    }
  }

  /** `[x]` when `x` has relevance `v`, else nothing. */
  function Matching(x: ScoredResult, v: real): seq<ScoredResult> {
    if x.relevance == v then [x] else []
  }

  /** Passing over a head of higher relevance keeps the records of each
      relevance in order, given that inserting into the tail does. */
  lemma {:induction false} InsertStablePast(x: ScoredResult, s: seq<ScoredResult>, v: real)
    requires s != [] && s[0].relevance > x.relevance
    requires WithRelevance(Insert(x, s[1..]), v) == Matching(x, v) + WithRelevance(s[1..], v)
    ensures WithRelevance(Insert(x, s), v) == Matching(x, v) + WithRelevance(s, v)
  {
    var rest := Insert(x, s[1..]);
    var tail := WithRelevance(s[1..], v);
    assert WithRelevance(Insert(x, s), v) == Matching(s[0], v) + WithRelevance(rest, v) by {
      assert Insert(x, s) == [s[0]] + rest;
      assert ([s[0]] + rest)[1..] == rest;
    }
    if x.relevance == v {
      assert Matching(s[0], v) == [];
      assert WithRelevance(s, v) == tail;
    } else {
      assert Matching(x, v) == [];
      assert WithRelevance(rest, v) == tail;
    }
  }

  /** Inserting keeps the records of each relevance in order and puts `x`
      before the records of its own relevance. */
  lemma {:induction false} InsertStable(x: ScoredResult, s: seq<ScoredResult>, v: real)
    ensures WithRelevance(Insert(x, s), v) == Matching(x, v) + WithRelevance(s, v)
    decreases |s|
  {
    if s == [] || s[0].relevance <= x.relevance {
      assert ([x] + s)[1..] == s;
    } else {
      InsertStable(x, s[1..], v);
      InsertStablePast(x, s, v);
    }
  }

  /** The sort orders by non-increasing relevance and is a permutation. */
  lemma {:induction false} SortSorted(s: seq<ScoredResult>)
    ensures NonIncreasing(SortByRelevance(s))
    ensures multiset(SortByRelevance(s)) == multiset(s)
    decreases |s|
  {
    if s != [] {
      SortSorted(s[1..]);
      InsertSorted(s[0], SortByRelevance(s[1..]));
      InsertPermutes(s[0], SortByRelevance(s[1..]));
      assert s == [s[0]] + s[1..];
    }
  }

  /** The sort is stable: the records of each relevance keep their input order. */
  lemma {:induction false} SortStable(s: seq<ScoredResult>, v: real)
    ensures WithRelevance(SortByRelevance(s), v) == WithRelevance(s, v)
    decreases |s|
  {
    if s != [] {
      SortStable(s[1..], v);
      InsertStable(s[0], SortByRelevance(s[1..]), v);
    }
  }

  // ---------------------------------------------------------------------
  // Ranking

  /** `results[:limit]`. */
  function Take(s: seq<ScoredResult>, limit: nat): (r: seq<ScoredResult>)
    ensures |r| == (if |s| <= limit then |s| else limit) && r == s[..|r|]
  {
    if |s| <= limit then s else s[..limit]
  }

  /** The ranked results for `query`: the scored files, sorted, truncated. */
  function Ranked(score: Scorer, root: string, threshold: real, files: seq<IndexedFile>)
    : seq<ScoredResult>
  {
    Take(SortByRelevance(Scored(score, root, threshold, files)), ResultLimit)
  }

  /** What the ranking promises: as many results as files scored above the
      threshold, but at most 100; each above the threshold and built from one
      of the files, by non-increasing relevance; and every scored file that
      was cut off ranks no higher than every result kept. */
  lemma {:induction false} RankedProperties(score: Scorer, root: string, threshold: real,
                         files: seq<IndexedFile>)
    ensures var results := Ranked(score, root, threshold, files);
            var sorted := SortByRelevance(Scored(score, root, threshold, files));
            var count := |Scored(score, root, threshold, files)|;
            |results| == (if count <= ResultLimit then count else ResultLimit)
            && NonIncreasing(results)
            && (forall r :: r in results ==> threshold < r.relevance && r in Scored(score, root, threshold, files))
            && (forall i, j :: 0 <= i < |results| <= j < |sorted| ==> sorted[j].relevance <= results[i].relevance)
  {
    var scored := Scored(score, root, threshold, files);
    var sorted := SortByRelevance(scored);
    var results := Take(sorted, ResultLimit);
    SortSorted(scored);
    SortKeeps(scored);
    ScoredAboveThreshold(score, root, threshold, files);
  }

  /** Sorting keeps the length and the members. */
  lemma {:induction false} SortKeeps(s: seq<ScoredResult>)
    ensures |SortByRelevance(s)| == |s|
    ensures forall r :: r in SortByRelevance(s) <==> r in s
  {
    var sorted := SortByRelevance(s);
    SortSorted(s);
    assert |sorted| == |multiset(sorted)| == |multiset(s)| == |s|;
    forall r ensures r in sorted <==> r in s {
      assert r in sorted <==> r in multiset(sorted);
      assert r in s <==> r in multiset(s);
    }
  }

  /** No file is lost below the limit: when at most 100 files score above
      the threshold, each of them is among the results. */
  lemma {:induction false} RankedComplete(score: Scorer, root: string, threshold: real, files: seq<IndexedFile>, f: IndexedFile)
    requires f in files && score(f.name) > threshold
    requires |Scored(score, root, threshold, files)| <= ResultLimit
    ensures ResultFor(root, f, score(f.name)) in Ranked(score, root, threshold, files)
  {
    var scored := Scored(score, root, threshold, files);
    var sorted := SortByRelevance(scored);
    ScoredComplete(score, root, threshold, files, f);
    SortKeeps(scored);
  }

  /** The scoring loop of `search` and `api_search`, then the sort and the
      truncation. */
  method RankFiles(ratio: SmartSearch.Ratio, root: string, query: string, threshold: real, files: seq<IndexedFile>)
    returns (results: seq<ScoredResult>)
    ensures results == Ranked(RelevanceTo(ratio, query), root, threshold, files)
  {
    ghost var score := RelevanceTo(ratio, query);
    var scoredResults: seq<ScoredResult> := [];
    var i := 0;
    while i < |files|
      invariant 0 <= i <= |files|
      invariant scoredResults == Scored(score, root, threshold, files[..i])
    {
      var fileItem := files[i];
      assert files[..i + 1][..i] == files[..i];
      var relevance := SmartSearch.SmartSearchScore(ratio, query, fileItem.name);
      assert relevance == score(fileItem.name);
      if relevance > threshold {
        var relativePath := YandexDisk.RelativePath(fileItem.path, root);
        var displayPath := DisplayPath(relativePath);
        scoredResults := scoredResults
          + [ScoredResult(fileItem.name, displayPath, fileItem.path, fileItem.size, relevance)];
      }
      i := i + 1;
    }
    assert files[..i] == files;
    scoredResults := SortByRelevance(scoredResults);
    results := Take(scoredResults, ResultLimit);
  }
}
