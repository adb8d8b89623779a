/** The request handlers of explorer/views.py, without Django: the
    breadcrumb trail that `index` builds from the requested folder path, and
    the `search` page, which ranks every indexed file against the query. */
module Views {
  import opened Strings
  import SmartSearch
  import Ranking

  // ---------------------------------------------------------------------
  // Breadcrumbs of `index`

  /** One breadcrumb: a folder name and the path up to and including it. */
  datatype Breadcrumb = Breadcrumb(name: string, path: string)

  /** The breadcrumbs for the first `k` segments of a path: one per
      non-empty segment, linking to the segments up to and including it. */
  function Trail(parts: seq<string>, k: nat): seq<Breadcrumb>
    requires k <= |parts|
  {
    if k == 0 then []
    else
      Trail(parts, k - 1)
        + (if parts[k - 1] != [] then [Breadcrumb(parts[k - 1], Join(parts[..k], "/"))] else [])
  }

  /** The breadcrumbs of the folder at `path` (none for the root). */
  function Breadcrumbs(path: string): seq<Breadcrumb> {
    if path == [] then [] else Trail(Split(path, '/'), |Split(path, '/')|)
  }

  /** The non-empty segments among the first `k`, in order. */
  function NonEmptyPrefix(parts: seq<string>, k: nat): seq<string>
    requires k <= |parts|
  {
    if k == 0 then [] else NonEmptyPrefix(parts, k - 1) + (if parts[k - 1] != [] then [parts[k - 1]] else [])
  }

  function Names(crumbs: seq<Breadcrumb>): seq<string> {
    seq(|crumbs|, i requires 0 <= i < |crumbs| => crumbs[i].name)
  }

  /** The breadcrumb names are the non-empty segments of the path, in order. */
  lemma {:induction false} TrailNames(parts: seq<string>, k: nat)
    requires k <= |parts|
    ensures Names(Trail(parts, k)) == NonEmptyPrefix(parts, k)
    decreases k
  {
    if k > 0 {
      TrailNames(parts, k - 1);
      var before := Trail(parts, k - 1);
      if parts[k - 1] != [] {
        var crumb := Breadcrumb(parts[k - 1], Join(parts[..k], "/"));
        assert Names(before + [crumb]) == Names(before) + [parts[k - 1]];
      }
    }
  }

  /** The crumb for segment `k - 1` links to a prefix of the path that ends
      with the segment's name. */
  lemma {:induction false} CrumbLink(path: string, k: nat)
    requires 1 <= k <= |Split(path, '/')|
    ensures var parts := Split(path, '/');
            var link := Join(parts[..k], "/");
            StartsWith(path, link) && EndsWith(link, parts[k - 1]) && '/' !in parts[k - 1]
  {
    var parts := Split(path, '/');
    SplitPieces(path, '/');
    JoinPrefix(parts, "/", k);
    JoinSplit(path, '/');
    if k >= 2 {
      JoinLast(parts[..k], "/");
      assert parts[..k][..k - 1] == parts[..k - 1];
    } else {
      assert parts[..k] == [parts[0]];
    }
  }

  /** Every crumb has a non-empty name without `/`, and links to a prefix
      of the path that ends with that name. */
  lemma {:induction false} TrailLinks(path: string, k: nat)
    requires k <= |Split(path, '/')|
    ensures forall c :: c in Trail(Split(path, '/'), k) ==>
              c.name != [] && '/' !in c.name && StartsWith(path, c.path) && EndsWith(c.path, c.name)
    decreases k
  {
    var parts := Split(path, '/');
    if k > 0 {
      TrailLinks(path, k - 1);
      if parts[k - 1] != [] {
        CrumbLink(path, k);
      }
    }
  }

  /** The breadcrumb loop of `index`. */
  method BuildBreadcrumbs(path: string) returns (breadcrumbs: seq<Breadcrumb>)
    ensures breadcrumbs == Breadcrumbs(path)
  {
    breadcrumbs := [];
    if path != [] {
      var pathParts := Split(path, '/');
      var i := 0;
      while i < |pathParts|
        invariant 0 <= i <= |pathParts|
        invariant breadcrumbs == Trail(pathParts, i)
      {
        var part := pathParts[i];
        if part != [] {
          var breadcrumbPath := Join(pathParts[..i + 1], "/");
          breadcrumbs := breadcrumbs + [Breadcrumb(part, breadcrumbPath)];
        }
        i := i + 1;
      }
    }
  }

  // ---------------------------------------------------------------------
  // The `search` page

  /** The search page's context: the query, the results and their count. */
  datatype SearchPage = SearchPage(query: string, results: seq<Ranking.ScoredResult>, resultsCount: nat)

  /** The page keeps the files whose relevance exceeds 5. */
  const SearchThreshold: real := 5.0

  /** `search`: the `q` parameter (absent means ""), stripped; an empty
      query gives an empty page without scoring anything; otherwise the
      ranked files, at most 100, each of relevance above 5, and their count. */
  method Search(ratio: SmartSearch.Ratio, root: string, q: Option<string>, files: seq<Ranking.IndexedFile>)
    returns (page: SearchPage)
    ensures var query := Strip(q.GetOr([]));
            (query == [] ==> page == SearchPage([], [], 0))
            && (query != [] ==>
                  (page.query == query
                   && page.results == Ranking.Ranked(Ranking.RelevanceTo(ratio, query), root, SearchThreshold, files)))
    ensures page.resultsCount == |page.results| <= Ranking.ResultLimit
    ensures forall r :: r in page.results ==> r.relevance > SearchThreshold
  {
    var query := Strip(q.GetOr([]));
    if query == [] {
      return SearchPage([], [], 0);
    }
    var finalResults := Ranking.RankFiles(ratio, root, query, SearchThreshold, files);
    Ranking.RankedProperties(Ranking.RelevanceTo(ratio, query), root, SearchThreshold, files);
    page := SearchPage(query, finalResults, |finalResults|);
  }
}
