/** The JSON search endpoint of explorer/api_views.py, without Django: the
    query check of `api_search`, its ranking (threshold 10) and the unit
    selection of `format_size`. */
module ApiViews {
  import opened Strings
  import SmartSearch
  import Ranking

  // ---------------------------------------------------------------------
  // format_size

  /** The unit names, indexed by the power of 1024. */
  const SizeNames: seq<string> := ["Б", "КБ", "МБ", "ГБ", "ТБ"]

  /** The largest unit index. */
  const MaxUnit: nat := 4

  function Pow1024(i: nat): (p: nat)
    ensures p >= 1
  {
    if i == 0 then 1 else 1024 * Pow1024(i - 1)
  }

  /** A formatted size: "0 Б" for zero, else a quantity in a unit. The
      rendering of the quantity with two decimals is not modelled. */
  datatype SizeText = ZeroBytes | Scaled(quantity: real, unit: nat)

  /** The unit `format_size` chooses, as a reference definition: the largest
      index `i <= 4` with `size >= 1024^i`, and 0 when there is none. */
  function UnitIndex(size: int): (i: nat)
    ensures i <= MaxUnit
  {
    if size >= Pow1024(4) then 4
    else if size >= Pow1024(3) then 3
    else if size >= Pow1024(2) then 2
    else if size >= Pow1024(1) then 1
    else 0
  }

  /** What `format_size` returns, before the quantity is printed. */
  function SizeLabel(size: int): SizeText {
    if size == 0 then ZeroBytes
    else Scaled(size as real / Pow1024(UnitIndex(size)) as real, UnitIndex(size))
  }

  /** The unit is the largest power of 1024 not above the size, up to
      terabytes, so the quantity is at least 1 and, below terabytes, less
      than 1024. */
  lemma {:induction false} SizeLabelBounds(size: int)
    requires size >= 1
    ensures var i := UnitIndex(size);
            Pow1024(i) <= size && (i < MaxUnit ==> size < Pow1024(i + 1))
            && 1.0 <= SizeLabel(size).quantity
            && (i < MaxUnit ==> SizeLabel(size).quantity < 1024.0)
  {
    var i := UnitIndex(size);
    var p := Pow1024(i);
    assert Pow1024(i + 1) == 1024 * p;
    QuotientBounds(size, p);
  }

  lemma {:induction false} QuotientBounds(size: int, p: nat)
    requires 1 <= p <= size
    ensures 1.0 <= size as real / p as real
    ensures size < 1024 * p ==> size as real / p as real < 1024.0
  {
    var q := size as real / p as real;
    var pr := p as real;
    assert q * pr == size as real;
    assert (q - 1.0) * pr >= 0.0;
    if size < 1024 * p {
      BelowByFactor(size as real, pr, 1024.0);
    }
  }

  lemma {:induction false} BelowByFactor(x: real, y: real, c: real)
    requires y > 0.0 && x < c * y
    ensures x / y < c
  {
    var q := x / y;
    assert q * y == x;
    assert (c - q) * y > 0.0;
  }

  /** One step of the loop: dividing the quotient by 1024 divides by the next power. */
  lemma {:induction false} DivideStep(size: int, i: nat)
    ensures (size as real / Pow1024(i) as real) / 1024.0 == size as real / Pow1024(i + 1) as real
    ensures size as real / Pow1024(i) as real >= 1024.0 <==> size >= Pow1024(i + 1)
  {
    var p := Pow1024(i) as real;
    assert Pow1024(i + 1) as real == 1024.0 * p;
  }

  /** `format_size`, with its loop dividing by 1024 until the quantity is
      below 1024 or the unit is terabytes. */
  method FormatSize(size: int) returns (text: SizeText)
    ensures text == SizeLabel(size)
    ensures text.Scaled? ==> text.unit < |SizeNames|
  {
    if size == 0 {
      return ZeroBytes;
    }
    var sizeBytes := size as real;
    var i := 0;
    while sizeBytes >= 1024.0 && i < |SizeNames| - 1
      invariant 0 <= i <= MaxUnit
      invariant sizeBytes == size as real / Pow1024(i) as real
      invariant forall k :: 1 <= k <= i ==> size >= Pow1024(k)
      decreases MaxUnit - i
    {
      DivideStep(size, i);
      sizeBytes := sizeBytes / 1024.0;
      i := i + 1;
    }
    DivideStep(size, i);
    assert i == UnitIndex(size) by {
      if i < MaxUnit {
        assert size < Pow1024(i + 1);
        forall j | i + 1 <= j <= MaxUnit ensures Pow1024(i + 1) <= Pow1024(j) {
          PowMonotone(i + 1, j);
        }
      }
    }
    text := Scaled(sizeBytes, i);
  }

  lemma {:induction false} PowMonotone(i: nat, j: nat)
    requires i <= j
    ensures Pow1024(i) <= Pow1024(j)
    decreases j - i
  {
    if i < j {
      PowMonotone(i, j - 1);
    }
  }

  // ---------------------------------------------------------------------
  // api_search

  /** The body of a POST request: not JSON at all, or a JSON object with or
      without a string `query` member. */
  datatype JsonBody = InvalidJson | JsonObject(query: Option<string>)

  datatype ApiRequest = GetRequest(q: Option<string>) | PostRequest(body: JsonBody)

  /** One result of the endpoint: the ranked record and its formatted size. */
  datatype ApiResult = ApiResult(result: Ranking.ScoredResult, sizeFormatted: SizeText)

  datatype ApiResponse =
    | ErrorResponse(status: nat, message: string)
    | SearchResponse(query: string, resultsCount: nat, results: seq<ApiResult>)

  /** The endpoint keeps the files whose relevance exceeds 10. */
  const ApiThreshold: real := 10.0

  const InvalidJsonMessage: string := "Invalid JSON"
  const MissingQueryMessage: string := "Query parameter \"q\" is required"

  /** The stripped query of a request, or None when the body is not JSON. */
  function RequestQuery(request: ApiRequest): Option<string> {
    match request
    case GetRequest(q) => Some(Strip(q.GetOr([])))
    case PostRequest(InvalidJson) => None
    case PostRequest(JsonObject(query)) => Some(Strip(query.GetOr([])))
  }

  /** The results of the endpoint for the ranked records. */
  function WithSizes(ranked: seq<Ranking.ScoredResult>): (r: seq<ApiResult>)
    ensures |r| == |ranked|
    ensures forall i :: 0 <= i < |r| ==> r[i].result == ranked[i] && r[i].sizeFormatted == SizeLabel(ranked[i].size)
  {
    seq(|ranked|, i requires 0 <= i < |ranked| => ApiResult(ranked[i], SizeLabel(ranked[i].size)))
  }

  /** A nonzero size is labelled by a quantity that, multiplied back by the
      unit's power of 1024, gives the size. */
  lemma {:induction false} SizeLabelExact(size: int)
    requires size != 0
    ensures SizeLabel(size).Scaled?
    ensures SizeLabel(size).quantity * Pow1024(SizeLabel(size).unit) as real == size as real
  {
  }

  /** What a nonzero size is labelled with: a unit up to terabytes and a
      quantity that gives back the size in that unit, at least 1 and, below
      terabytes, below 1024. */
  predicate LabelsSize(t: SizeText, size: int) {
    t.Scaled? && t.unit <= MaxUnit
    && t.quantity * Pow1024(t.unit) as real == size as real
    && 1.0 <= t.quantity && (t.unit < MaxUnit ==> t.quantity < 1024.0)
  }

  lemma {:induction false} SizeLabelSound(size: int)
    requires size >= 1
    ensures LabelsSize(SizeLabel(size), size)
  {
    SizeLabelExact(size);
    SizeLabelBounds(size);
  }

  /** The endpoint's results are the ranked records in order, each with
      its own size: "0 Б" exactly for an empty file, otherwise a quantity
      that gives back the size in its unit, at least 1 and, below
      terabytes, below 1024. */
  lemma {:induction false} WithSizesLabels(ranked: seq<Ranking.ScoredResult>)
    ensures var r := WithSizes(ranked);
            |r| == |ranked|
            && forall i :: 0 <= i < |r| ==>
                 r[i].result == ranked[i]
                 && (r[i].sizeFormatted.ZeroBytes? <==> ranked[i].size == 0)
                 && (ranked[i].size >= 1 ==> LabelsSize(r[i].sizeFormatted, ranked[i].size))
  {
    forall i | 0 <= i < |ranked| && ranked[i].size >= 1 ensures LabelsSize(SizeLabel(ranked[i].size), ranked[i].size) {
      SizeLabelSound(ranked[i].size);
    }
  }

  /** `api_search`: a body that is not JSON and an empty (after strip) query
      are answered with a 400 error before any scoring; otherwise the
      response carries the query, the ranked files (at most 100, each of
      relevance above 10) with their formatted sizes, and their count. */
  method ApiSearch(ratio: SmartSearch.Ratio, root: string, request: ApiRequest, files: seq<Ranking.IndexedFile>)
    returns (response: ApiResponse)
    ensures RequestQuery(request).None? ==> response == ErrorResponse(400, InvalidJsonMessage)
    ensures RequestQuery(request) == Some([]) ==> response == ErrorResponse(400, MissingQueryMessage)
    ensures RequestQuery(request).Some? && RequestQuery(request).value != [] ==>
              var query := RequestQuery(request).value;
              response.SearchResponse? && response.query == query
              && response.results == WithSizes(Ranking.Ranked(Ranking.RelevanceTo(ratio, query), root, ApiThreshold, files))
    ensures response.SearchResponse? ==>
              response.resultsCount == |response.results| <= Ranking.ResultLimit
              && forall r :: r in response.results ==> r.result.relevance > ApiThreshold
  {
    var query: string;
    match request {
      case PostRequest(body) =>
        match body {
          case InvalidJson =>
            return ErrorResponse(400, InvalidJsonMessage);
          case JsonObject(q) =>
            query := Strip(q.GetOr([]));
        }
      case GetRequest(q) =>
        query := Strip(q.GetOr([]));
    }
    if query == [] {
      return ErrorResponse(400, MissingQueryMessage);
    }
    var finalResults := Ranking.RankFiles(ratio, root, query, ApiThreshold, files);
    Ranking.RankedProperties(Ranking.RelevanceTo(ratio, query), root, ApiThreshold, files);
    var results := WithSizes(finalResults);
    forall r | r in results ensures r.result.relevance > ApiThreshold {
      var k :| 0 <= k < |results| && results[k] == r;
      assert r.result == finalResults[k];
    }
    response := SearchResponse(query, |results|, results);
  }
}
