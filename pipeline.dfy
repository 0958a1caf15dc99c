/** The orchestration in `main`: retrieve the datasets for a query, keep those
    with a truthy DOI and a citation count outside {0} and [10, oo), attach
    the enriched citation details to each, and name the output file after
    the query. */
module Pipeline {
  import opened PyJson
  import Retrieval
  import Citations
  import Scopus

  /** The responses of the three HTTP APIs, as functions of what is asked,
      and Python's parsing of integer strings.  `datacite(n)` is the response
      to page `n` of the dataset search for the query, with 100 rows per
      page. */
  datatype Services = Services(
    datacite: int -> Response,
    citationCount: Json -> Response,
    citations: Json -> Response,
    scopus: Json -> Response,
    intOfStr: string -> Option<int>)

  /** `main` calls `retrieve_datasets(query, rows=100, max_pages=3)`. */
  const MaxPages: int := 3

  /** What a run leaves behind: nothing ("No datasets found"), or the records
      saved to a file. */
  datatype Outcome = NoDatasets | Saved(path: string, records: seq<Json>)

  /** The count filter: a dataset is skipped when its count is 0 or at least
      10.  Nothing checks the sign, so a negative count is kept. */
  function Retained(count: int): (keep: bool)
    ensures keep <==> (1 <= count <= 9 || count < 0)
  {
    !(count == 0 || count >= 10)
  }

  /** The dict merged into one citation: what the extraction makes of a
      truthy lookup result, or the fallback when the lookup failed or came
      back empty. */
  function Enrichment(resp: Response): (r: Result<Fields>)
    ensures r.Ok? ==> Keys(r.value) == Scopus.InfoKeys
    ensures !Truthy(Scopus.FetchScopusInfo(resp)) ==> r == Ok(Scopus.Fallback)
    ensures resp.status != 200 ==> r == Ok(Scopus.ExtractScopusInfo(Obj([])).value)
  {
    Scopus.FallbackIsEmptyExtraction();
    var scopusData := Scopus.FetchScopusInfo(resp);
    if Truthy(scopusData) then Scopus.ExtractScopusInfo(scopusData) else Ok(Scopus.Fallback)
  }

  /** A lookup that comes back with a truthy body is enriched with what the
      extraction makes of that body, exceptions included. */
  lemma EnrichmentOnSuccess(resp: Response)
    requires resp.status == 200 && Truthy(resp.body)
    ensures Enrichment(resp) == Scopus.ExtractScopusInfo(resp.body)
  {
  }

  /** One citation detail after `detail.update(...)` with its enrichment.
      For a detail with the four detail keys the update only appends, which
      `MergeFresh` establishes. */
  function Enriched(detail: Fields, s: Services): (r: Result<Json>)
    ensures r.Ok? <==> Enrichment(s.scopus(Get(detail, "doi", Str("")))).Ok?
    ensures r.Ok? && Keys(detail) == Citations.DetailKeys ==> MergedFrom(detail, r.value, s)
  {
    var info :- Enrichment(s.scopus(Get(detail, "doi", Str(""))));
    MergeFresh(detail, info);
    Ok(Obj(Update(detail, info)))
  }

  /** Updating a detail with an enrichment appends the enrichment: no
      enrichment key is already among the detail keys. */
  lemma MergeFresh(detail: Fields, info: Fields)
    ensures Keys(detail) == Citations.DetailKeys && Keys(info) == Scopus.InfoKeys ==>
              && Update(detail, info) == detail + info
              && Keys(detail + info) == Citations.DetailKeys + Scopus.InfoKeys
  {
    if Keys(detail) == Citations.DetailKeys && Keys(info) == Scopus.InfoKeys {
      InfoKeysFresh();
      UpdateFresh(detail, info);
      KeysAppend(detail, info);
    }
  }

  /** The `citations` list of one output record. */
  function EnrichedCitations(details: seq<Fields>, s: Services): (r: Result<seq<Json>>)
    ensures r.Ok? ==> |r.value| == |details|
  {
    if details == [] then Ok([])
    else
      var first :- Enriched(details[0], s);
      var rest :- EnrichedCitations(details[1..], s);
      Ok([first] + rest)
  }

  lemma CitationsAt(details: seq<Fields>, i: int, s: Services)
    requires 0 <= i < |details|
    ensures EnrichedCitations(details[i..], s) ==
              match Enriched(details[i], s)
              case Raise(e) => Raise(e)
              case Ok(c) => Prepend([c], EnrichedCitations(details[i + 1..], s))
  {
  }

  /** The inner loop of `main`: each detail is updated with its enrichment
      and appended to the record's citations. */
  method EnrichCitations(details: seq<Fields>, s: Services) returns (r: Result<seq<Json>>)
    ensures r == EnrichedCitations(details, s)
  {
    var citations: seq<Json> := [];
    PrependNothing(EnrichedCitations(details, s));
    for i := 0 to |details|
      invariant EnrichedCitations(details, s) == Prepend(citations, EnrichedCitations(details[i..], s))
    {
      CitationsAt(details, i, s);
      var detail := details[i];
      var citingDoi := Get(detail, "doi", Str(""));
      var scopusData := Scopus.FetchScopusInfo(s.scopus(citingDoi));
      if Truthy(scopusData) {
        var scopusInfo :- Scopus.ExtractScopusInfo(scopusData);
        detail := Update(detail, scopusInfo);
      } else {
        detail := Update(detail, Scopus.Fallback);
      }
      PrependTwice(citations, [Obj(detail)], EnrichedCitations(details[i + 1..], s));
      citations := citations + [Obj(detail)];
    }
    assert details[|details|..] == [];
    assert citations + [] == citations;
    r := Ok(citations);
  }

  /** `dataset.get("attributes", {}).get("doi", "")`. */
  function DoiOf(dataset: Json): (r: Result<Json>)
    ensures r.Ok? <==> dataset.Obj? && OrDefault(Lookup(dataset.fields, "attributes"), Obj([])).Obj?
    ensures r.Raise? ==> r.error == AttributeError
  {
    var attributes :- DictGet(dataset, "attributes", Obj([]));
    DictGet(attributes, "doi", Str(""))
  }

  /** The DOI read is the value at attributes/doi, or "" when either step
      is missing. */
  lemma DoiAlongPath(dataset: Json)
    requires DoiOf(dataset).Ok?
    ensures DoiOf(dataset).value == OrDefault(At(dataset, ["attributes", "doi"]), Str(""))
  {
    AtStep(dataset, "attributes", ["doi"]);
    var attributes := Get(dataset.fields, "attributes", Obj([]));
    if Lookup(dataset.fields, "attributes").Some? {
      AtStep(attributes, "doi", []);
    }
  }

  /** The shape of every output record: its truthy DOI, a retained count and
      its citations, under these three keys in this order.  Each citation is
      a dict with the four detail keys followed by the four enrichment
      keys. */
  ghost predicate IsOutputRecord(rec: Json) {
    && rec.Obj?
    && Keys(rec.fields) == ["doi", "citation_count", "citations"]
    && Truthy(rec.fields[0].1)
    && rec.fields[1].1.Num? && rec.fields[1].1.n != 0 && rec.fields[1].1.n < 10
    && rec.fields[2].1.Arr?
    && forall c :: c in rec.fields[2].1.items ==> c.Obj? && Keys(c.fields) == Citations.DetailKeys + Scopus.InfoKeys
  }

  /** One iteration of the dataset loop of `main`: the record it appends, or
      None where it continues. */
  function RecordFor(dataset: Json, s: Services): (r: Result<Option<Json>>)
    ensures r.Ok? ==>
              && DoiOf(dataset).Ok?
              && (r.value.Some? <==>
                    && Truthy(DoiOf(dataset).value)
                    && CountOf(dataset, s).Ok?
                    && CountOf(dataset, s).value != 0
                    && CountOf(dataset, s).value < 10)
    ensures r.Ok? && r.value.Some? ==>
              var doi := DoiOf(dataset).value;
              && Citations.CitationDetails(s.citations(doi)).Ok?
              && EnrichedCitations(Citations.CitationDetails(s.citations(doi)).value, s).Ok?
              && r.value.value ==
                   Obj([("doi", doi), ("citation_count", Num(CountOf(dataset, s).value)),
                        ("citations", Arr(EnrichedCitations(Citations.CitationDetails(s.citations(doi)).value, s).value))])
    ensures r.Ok? && r.value.Some? ==> IsOutputRecord(r.value.value)
    ensures DoiOf(dataset).Ok? && Truthy(DoiOf(dataset).value) && CountOf(dataset, s).Raise? ==>
              r == Raise(CountOf(dataset, s).error)
  {
    var doi :- DoiOf(dataset);
    if !Truthy(doi) then Ok(None)
    else
      var count :- Citations.CitationCount(s.citationCount(doi), s.intOfStr);
      if !Retained(count) then Ok(None)
      else
        var details :- Citations.CitationDetails(s.citations(doi));
        var citations :- EnrichedCitations(details, s);
        CitationsExtendDetails(details, s);
        Ok(Some(Obj([("doi", doi), ("citation_count", Num(count)), ("citations", Arr(citations))])))
  }

  /** A dataset whose DOI is truthy, whose count is retained and whose
      citations are fetched and enriched without an exception yields the
      record of those parts. */
  lemma RecordOfParts(dataset: Json, s: Services, doi: Json, count: int, details: seq<Fields>, citations: seq<Json>)
    requires DoiOf(dataset) == Ok(doi) && Truthy(doi)
    requires Citations.CitationCount(s.citationCount(doi), s.intOfStr) == Ok(count) && Retained(count)
    requires Citations.CitationDetails(s.citations(doi)) == Ok(details)
    requires EnrichedCitations(details, s) == Ok(citations)
    ensures RecordFor(dataset, s) ==
              Ok(Some(Obj([("doi", doi), ("citation_count", Num(count)), ("citations", Arr(citations))])))
  {
  }

  /** The count `main` fetches for a dataset whose DOI it could read. */
  function CountOf(dataset: Json, s: Services): Result<int>
    requires DoiOf(dataset).Ok?
  {
    Citations.CitationCount(s.citationCount(DoiOf(dataset).value), s.intOfStr)
  }

  function Listed(o: Option<Json>): seq<Json> {
    match o
    case Some(x) => [x]
    case None => []
  }

  /** The records `main` collects from `datasets`, in dataset order. */
  function EnrichedRecords(datasets: seq<Json>, s: Services): (r: Result<seq<Json>>)
    ensures r.Ok? ==> |r.value| <= |datasets|
    ensures r.Ok? ==> forall i :: 0 <= i < |r.value| ==> IsOutputRecord(r.value[i])
  {
    if datasets == [] then Ok([])
    else
      var rec :- RecordFor(datasets[0], s);
      var rest :- EnrichedRecords(datasets[1..], s);
      Ok(Listed(rec) + rest)
  }

  lemma RecordsAt(datasets: seq<Json>, i: int, s: Services)
    requires 0 <= i < |datasets|
    ensures EnrichedRecords(datasets[i..], s) ==
              match RecordFor(datasets[i], s)
              case Raise(e) => Raise(e)
              case Ok(rec) => Prepend(Listed(rec), EnrichedRecords(datasets[i + 1..], s))
  {
  }

  /** `query.replace(' ', '_')`. */
  function ReplaceSpaces(query: string): string {
    seq(|query|, i requires 0 <= i < |query| => if query[i] == ' ' then '_' else query[i])
  }

  /** The output file of a run for `query`. */
  function OutputPath(query: string): (path: string)
    ensures |path| == |query| + 19
    ensures path[..14] == "data/datasets_" && path[|path| - 5..] == ".json"
    ensures forall i :: 0 <= i < |query| ==> path[14 + i] == (if query[i] == ' ' then '_' else query[i])
    ensures forall i :: 14 <= i < |path| - 5 ==> path[i] != ' '
  {
    "data/datasets_" + ReplaceSpaces(query) + ".json"
  }

  /** A whole run of `main` for `query`. */
  function Pipeline(query: string, s: Services): (r: Result<Outcome>)
    ensures Retrieval.Retrieve(s.datacite, MaxPages) == Ok([]) ==> r == Ok(NoDatasets)
    ensures Retrieval.Retrieve(s.datacite, MaxPages).Raise? ==> r == Raise(Retrieval.Retrieve(s.datacite, MaxPages).error)
    ensures var ret := Retrieval.Retrieve(s.datacite, MaxPages);
            ret.Ok? && ret.value != [] ==>
              r == match EnrichedRecords(ret.value, s)
                   case Raise(e) => Raise(e)
                   case Ok(records) => Ok(Saved(OutputPath(query), records))
    ensures r.Ok? && r.value.Saved? ==> r.value.path == OutputPath(query)
    ensures r.Ok? && r.value.Saved? ==> forall i :: 0 <= i < |r.value.records| ==> IsOutputRecord(r.value.records[i])
  {
    var datasets :- Retrieval.Retrieve(s.datacite, MaxPages);
    if datasets == [] then Ok(NoDatasets)
    else
      var records :- EnrichedRecords(datasets, s);
      Ok(Saved(OutputPath(query), records))
  }

  /** `main`, with its two loops. */
  method Run(query: string, s: Services) returns (r: Result<Outcome>)
    ensures r == Pipeline(query, s)
  {
    var retrieved;
    ghost var requested;
    retrieved, requested := Retrieval.RetrieveDatasets(s.datacite, MaxPages);
    var datasets :- retrieved;
    if datasets == [] {
      return Ok(NoDatasets);
    }
    var enrichedRecords: seq<Json> := [];
    PrependNothing(EnrichedRecords(datasets, s));
    for i := 0 to |datasets|
      invariant EnrichedRecords(datasets, s) == Prepend(enrichedRecords, EnrichedRecords(datasets[i..], s))
    {
      RecordsAt(datasets, i, s);
      var dataset := datasets[i];
      var attributes :- DictGet(dataset, "attributes", Obj([]));
      var doi :- DictGet(attributes, "doi", Str(""));
      if !Truthy(doi) {
        PrependNothing(EnrichedRecords(datasets[i + 1..], s));
        continue;
      }
      var citationCount :- Citations.CitationCount(s.citationCount(doi), s.intOfStr);
      if citationCount == 0 || citationCount >= 10 {
        PrependNothing(EnrichedRecords(datasets[i + 1..], s));
        continue;
      }
      var citationDetails :- Citations.CitationDetails(s.citations(doi));
      var citations :- EnrichCitations(citationDetails, s);
      var enrichedRecord := Obj([("doi", doi), ("citation_count", Num(citationCount)), ("citations", Arr(citations))]);
      PrependTwice(enrichedRecords, [enrichedRecord], EnrichedRecords(datasets[i + 1..], s));
      enrichedRecords := enrichedRecords + [enrichedRecord];
    }
    assert datasets[|datasets|..] == [];
    assert enrichedRecords + [] == enrichedRecords;
    r := Ok(Saved(OutputPath(query), enrichedRecords));
  }

  /** Processing two runs of datasets one after the other gives the records
      of the first followed by those of the second: records come out in
      dataset order, and an exception in the first run ends everything. */
  lemma {:induction false} EnrichedRecordsAppend(a: seq<Json>, b: seq<Json>, s: Services)
    ensures EnrichedRecords(a + b, s) ==
              match EnrichedRecords(a, s)
              case Raise(e) => Raise(e)
              case Ok(front) => Prepend(front, EnrichedRecords(b, s))
  {
    if a == [] {
      assert a + b == b;
      PrependNothing(EnrichedRecords(b, s));
    } else {
      assert (a + b)[0] == a[0];
      assert (a + b)[1..] == a[1..] + b;
      EnrichedRecordsAppend(a[1..], b, s);
      match RecordFor(a[0], s)
      case Raise(e) =>
      case Ok(rec) =>
        match EnrichedRecords(a[1..], s)
        case Raise(e) =>
        case Ok(front) =>
          PrependTwice(Listed(rec), front, EnrichedRecords(b, s));
    }
  }

  /** A dataset whose DOI is falsy contributes nothing and stops nothing. */
  lemma SkipsFalsyDoi(dataset: Json, rest: seq<Json>, s: Services)
    requires DoiOf(dataset).Ok? && !Truthy(DoiOf(dataset).value)
    ensures EnrichedRecords([dataset] + rest, s) == EnrichedRecords(rest, s)
  {
    assert ([dataset] + rest)[1..] == rest;
    PrependNothing(EnrichedRecords(rest, s));
  }

  /** `citation` is `detail` with the enrichment of its citing DOI appended:
      the detail's four keys first and in place, the four enrichment keys
      after them. */
  ghost predicate MergedFrom(detail: Fields, citation: Json, s: Services) {
    var info := Enrichment(s.scopus(Get(detail, "doi", Str(""))));
    && info.Ok?
    && citation == Obj(detail + info.value)
    && Keys(citation.fields) == Citations.DetailKeys + Scopus.InfoKeys
  }

  /** The enrichment keys are distinct and none of them is a detail key. */
  lemma InfoKeysFresh()
    ensures Distinct(Scopus.InfoKeys)
    ensures forall k :: k in Scopus.InfoKeys ==> k !in Citations.DetailKeys
  {
  }


  /** Merging keeps each citation detail as it was and appends the
      enrichment after it: the citations list has one entry per detail, in
      detail order. */
  lemma {:induction false} CitationsExtendDetails(details: seq<Fields>, s: Services)
    requires forall i :: 0 <= i < |details| ==> Keys(details[i]) == Citations.DetailKeys
    requires EnrichedCitations(details, s).Ok?
    ensures |EnrichedCitations(details, s).value| == |details|
    ensures forall i :: 0 <= i < |details| ==> MergedFrom(details[i], EnrichedCitations(details, s).value[i], s)
  {
    if details != [] {
      var cs := EnrichedCitations(details, s).value;
      var rest := EnrichedCitations(details[1..], s);
      CitationsExtendDetails(details[1..], s);
      assert cs == [Enriched(details[0], s).value] + rest.value;
      forall i | 1 <= i < |details| ensures MergedFrom(details[i], cs[i], s) {
        assert details[i] == details[1..][i - 1];
        assert cs[i] == rest.value[i - 1];
      }
    }
  }

  const ClimateDataset: Json := Obj([("attributes", Obj([("doi", Str("10.1/abc"))]))])

  const ClimateDetail: Fields :=
    [("doi", Str("10.2/def")), ("creation", Str("")), ("journal_sc", Str("")), ("author_sc", Str(""))]

  /** The one citation of the scenario: its detail, then the defaults of a
      failed abstract lookup. */
  const ClimateCitation: Json :=
    Obj([("doi", Str("10.2/def")), ("creation", Str("")), ("journal_sc", Str("")), ("author_sc", Str("")),
         ("title", Str("Not found")), ("abstract", Str("Not found")), ("subject_areas", Arr([])),
         ("use_dataset", Str(""))])

  const ClimateRecord: Json :=
    Obj([("doi", Str("10.1/abc")), ("citation_count", Num(3)), ("citations", Arr([ClimateCitation]))])

  /** APIs that answer one dataset on the first search page and none on the
      second, a count of 3 for its DOI, one citing work, and a failed
      abstract lookup for that work. */
  ghost predicate ClimateDataApis(s: Services) {
    && s.datacite(1) == Response(200, Obj([("data", Arr([ClimateDataset]))]))
    && s.datacite(2) == Response(200, Obj([("data", Arr([]))]))
    && s.citationCount(Str("10.1/abc")) == Response(200, Arr([Obj([("count", Num(3))])]))
    && s.citations(Str("10.1/abc")) == Response(200, Arr([Obj([("citing", Str("10.2/def"))])]))
    && s.scopus(Str("10.2/def")).status == 404
  }

  lemma ClimateDataRetrieval(s: Services)
    requires ClimateDataApis(s)
    ensures Retrieval.Retrieve(s.datacite, MaxPages) == Ok([ClimateDataset])
  {
    assert Retrieval.PageStep(s.datacite(1)) == Retrieval.Extend([ClimateDataset]);
    assert Retrieval.PageStep(s.datacite(2)).Halt?;
    Retrieval.GatherUntilHalt(s.datacite, 1, 2, MaxPages);
    assert Retrieval.Collected(s.datacite, 2, 2) == [];
    assert Retrieval.Collected(s.datacite, 1, 2) == [ClimateDataset] + [];
    assert [ClimateDataset] + [] == [ClimateDataset];
  }

  lemma ClimateDataCount(s: Services)
    requires ClimateDataApis(s)
    ensures DoiOf(ClimateDataset) == Ok(Str("10.1/abc"))
    ensures Citations.CitationCount(s.citationCount(Str("10.1/abc")), s.intOfStr) == Ok(3)
  {
    assert Lookup([("count", Num(3))], "count") == Some(Num(3));
  }

  lemma ClimateDataDetails(s: Services)
    requires ClimateDataApis(s)
    ensures Citations.CitationDetails(s.citations(Str("10.1/abc"))) == Ok([ClimateDetail])
  {
    var entry := Obj([("citing", Str("10.2/def"))]);
    assert Citations.DetailOf(entry) == Ok(ClimateDetail);
    assert [entry][1..] == [];
    assert Citations.DetailsOf([entry]) == Ok([ClimateDetail] + []);
    assert [ClimateDetail] + [] == [ClimateDetail];
  }

  lemma ClimateCitationMerged()
    ensures Obj(ClimateDetail + Scopus.Fallback) == ClimateCitation
  {
    assert ClimateDetail + Scopus.Fallback == ClimateCitation.fields;
  }

  lemma ClimateDataEnriched(s: Services)
    requires ClimateDataApis(s)
    ensures Enriched(ClimateDetail, s) == Ok(ClimateCitation)
  {
    assert Get(ClimateDetail, "doi", Str("")) == Str("10.2/def");
    assert Enrichment(s.scopus(Str("10.2/def"))) == Ok(Scopus.Fallback);
    MergeFresh(ClimateDetail, Scopus.Fallback);
    ClimateCitationMerged();
  }

  lemma ClimateDataCitations(s: Services)
    requires ClimateDataApis(s)
    ensures EnrichedCitations([ClimateDetail], s) == Ok([ClimateCitation])
  {
    ClimateDataEnriched(s);
    assert [ClimateDetail][1..] == [];
    assert [ClimateCitation] + [] == [ClimateCitation];
  }

  lemma ClimateDataRecord(s: Services)
    requires ClimateDataApis(s)
    ensures RecordFor(ClimateDataset, s) == Ok(Some(ClimateRecord))
  {
    ClimateDataCount(s);
    ClimateDataDetails(s);
    ClimateDataCitations(s);
    RecordOfParts(ClimateDataset, s, Str("10.1/abc"), 3, [ClimateDetail], [ClimateCitation]);
  }

  lemma ClimateDataRecords(s: Services)
    requires ClimateDataApis(s)
    ensures EnrichedRecords([ClimateDataset], s) == Ok([ClimateRecord])
  {
    var ds := [ClimateDataset];
    ClimateDataRecord(s);
    assert ds[1..] == [];
    assert EnrichedRecords(ds[1..], s) == Ok([]);
    assert [ClimateRecord] + [] == [ClimateRecord];
  }

  lemma ClimateDataPath()
    ensures OutputPath("climate data") == "data/datasets_climate_data.json"
  {
    var r := ReplaceSpaces("climate data");
    assert |r| == 12;
    forall i | 0 <= i < 12 ensures r[i] == "climate_data"[i] {}
  }

  /** A run for "climate data" against those APIs saves one record, with
      count 3 and one citation whose enrichment is all defaults, to
      data/datasets_climate_data.json. */
  lemma ClimateDataScenario(s: Services)
    requires ClimateDataApis(s)
    ensures Pipeline("climate data", s) == Ok(Saved("data/datasets_climate_data.json", [ClimateRecord]))
  {
    ClimateDataRetrieval(s);
    ClimateDataRecords(s);
    ClimateDataPath();
  }
}
