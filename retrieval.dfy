/** Paginated dataset search: `retrieve_datasets` requests pages 1, 2, ...
    up to a maximum, concatenates the `data` arrays it receives, and stops at
    the first failed request or empty page. */
module Retrieval {
  import opened PyJson

  /** What one page request contributes to the accumulation: the loop ends,
      the page's records are appended, or an exception escapes. */
  datatype Step = Halt | Extend(items: seq<Json>) | Fail(error: PyError)

  /** The body of one iteration of the page loop, on a given response. */
  function PageStep(resp: Response): (r: Step)
    ensures resp.status != 200 ==> r == Halt
    ensures resp.status == 200 && !resp.body.Obj? ==> r == Fail(AttributeError)
    ensures resp.status == 200 && resp.body.Obj? ==>
              var data := OrDefault(Lookup(resp.body.fields, "data"), Arr([]));
              && (!Truthy(data) ==> r == Halt)
              && (data.Arr? && data.items != [] ==> r == Extend(data.items))
    ensures r.Extend? ==> r.items != []
    ensures r.Fail? ==> (r.error == AttributeError <==> !resp.body.Obj?)
  {
    if resp.status != 200 then Halt
    else
      match DictGet(resp.body, "data", Arr([]))
      case Raise(e) => Fail(e)
      case Ok(datasets) =>
        if !Truthy(datasets) then Halt
        else
          match Iter(datasets)
          case Raise(e) => Fail(e)
          case Ok(items) => Extend(items)
  }

  /** What the loop accumulates from page `page` on, given the responses
      `pages` that the search returns for each page number. */
  function Gather(pages: int -> Response, page: int, maxPages: int): (r: Result<seq<Json>>)
    ensures page > maxPages ==> r == Ok([])
    ensures r.Raise? ==> exists p :: page <= p <= maxPages && PageStep(pages(p)) == Fail(r.error)
    ensures r.Ok? ==> forall x :: x in r.value ==>
              exists p :: page <= p <= maxPages && PageStep(pages(p)).Extend? && x in PageStep(pages(p)).items
    decreases maxPages - page
  {
    if page > maxPages then Ok([])
    else
      match PageStep(pages(page))
      case Halt => Ok([])
      case Fail(e) => Raise(e)
      case Extend(items) =>
        var rest :- Gather(pages, page + 1, maxPages);
        Ok(items + rest)
  }

  /** `retrieve_datasets(query, rows, max_pages)`, where `pages(n)` is the
      response to the request for page `n` of `query` with `rows` per page. */
  function Retrieve(pages: int -> Response, maxPages: int): (r: Result<seq<Json>>)
    ensures maxPages < 1 ==> r == Ok([])
    ensures r.Raise? ==> exists p :: 1 <= p <= maxPages && PageStep(pages(p)) == Fail(r.error)
    ensures r.Ok? ==> forall x :: x in r.value ==>
              exists p :: 1 <= p <= maxPages && PageStep(pages(p)).Extend? && x in PageStep(pages(p)).items
  {
    Gather(pages, 1, maxPages)
  }

  /** The imperative loop.  `requested` records the page numbers requested,
      in order: at most `maxPages` of them, numbered from 1. */
  method RetrieveDatasets(pages: int -> Response, maxPages: int)
    returns (r: Result<seq<Json>>, ghost requested: seq<int>)
    ensures r == Retrieve(pages, maxPages)
    ensures |requested| <= if maxPages < 0 then 0 else maxPages
    ensures forall i :: 0 <= i < |requested| ==> requested[i] == i + 1
  {
    var pageNumber := 1;
    var allDatasets: seq<Json> := [];
    requested := [];
    PrependNothing(Retrieve(pages, maxPages));
    while pageNumber <= maxPages
      invariant 1 <= pageNumber <= if maxPages < 1 then 1 else maxPages + 1
      invariant |requested| == pageNumber - 1
      invariant forall i :: 0 <= i < |requested| ==> requested[i] == i + 1
      invariant Retrieve(pages, maxPages) == Prepend(allDatasets, Gather(pages, pageNumber, maxPages))
      decreases maxPages - pageNumber
    {
      var response := pages(pageNumber);
      requested := requested + [pageNumber];
      if response.status == 200 {
        var data := response.body;
        var datasets :- DictGet(data, "data", Arr([]));
        if !Truthy(datasets) {
          break;
        }
        var items :- Iter(datasets);
        PrependTwice(allDatasets, items, Gather(pages, pageNumber + 1, maxPages));
        allDatasets := allDatasets + items;
        pageNumber := pageNumber + 1;
      } else {
        break;
      }
    }
    assert Gather(pages, pageNumber, maxPages) == Ok([]);
    assert allDatasets + [] == allDatasets;
    r := Ok(allDatasets);
  }

  /** The pages in [lo, hi) all contribute records. */
  ghost predicate AllExtend(pages: int -> Response, lo: int, hi: int) {
    forall p :: lo <= p < hi ==> PageStep(pages(p)).Extend?
  }

  /** The records of pages lo, ..., hi - 1, concatenated in page order. */
  function Collected(pages: int -> Response, lo: int, hi: int): seq<Json>
    requires AllExtend(pages, lo, hi)
    decreases hi - lo
  {
    if lo >= hi then [] else PageStep(pages(lo)).items + Collected(pages, lo + 1, hi)
  }

  /** If every page before `k` has records and page `k` ends the loop (it
      failed, is empty, or lies past `maxPages`), the result is the
      concatenation of the records of pages lo .. k - 1, in order; page `k`'s
      successors are never consulted. */
  lemma {:induction false} GatherUntilHalt(pages: int -> Response, lo: int, k: int, maxPages: int)
    requires lo <= k <= maxPages + 1
    requires AllExtend(pages, lo, k)
    requires k > maxPages || PageStep(pages(k)).Halt?
    ensures Gather(pages, lo, maxPages) == Ok(Collected(pages, lo, k))
    decreases k - lo
  {
    if lo < k {
      GatherUntilHalt(pages, lo + 1, k, maxPages);
    }
  }

  /** If every page before `k` has records and page `k` raises, the whole
      retrieval raises: the records gathered so far are lost. */
  lemma {:induction false} GatherUntilFail(pages: int -> Response, lo: int, k: int, maxPages: int)
    requires lo <= k <= maxPages
    requires AllExtend(pages, lo, k)
    requires PageStep(pages(k)).Fail?
    ensures Gather(pages, lo, maxPages) == Raise(PageStep(pages(k)).error)
    decreases k - lo
  {
    if lo < k {
      GatherUntilFail(pages, lo + 1, k, maxPages);
    }
  }
}
