# datasets-retriever, modelled in Dafny

`src/retrieve_datasets.py` runs a pipeline over three research-metadata APIs.
It searches the DataCite dataset registry page by page. For each dataset DOI it
asks OpenCitations for a citation count. It keeps only lightly-cited datasets:
those whose count is neither 0 nor 10 or more. For each kept dataset it fetches
the citing works from OpenCitations and enriches each one with title, abstract
and subject areas from the Scopus abstract-retrieval API. The records it
gathers are saved to `data/datasets_<query>.json`.

This project models the logic between those HTTP calls:

- the page loop of `retrieve_datasets`;
- the normalisation of the polymorphic count response in `fetch_citation_count`;
- the reshaping in `fetch_citation_details` and `extract_scopus_info`;
- the filter, merge and output-path rules of `main`.

Each HTTP response is an input value (`PyJson.Response`: a status code and a
decoded JSON body). Each API is a function from what is asked to its response,
bundled in `Pipeline.Services`. Python's exceptions on malformed shapes are
modelled: `.get` on a non-dict raises AttributeError, iterating a number raises
TypeError, and so on. The source catches none of them, so they end the run
(`PyJson.Result`).

Modules, one per concern:

- `pyjson.dfy` (`PyJson`): decoded JSON, with dicts as ordered key/value
  lists. It also gives the semantics of the Python operations the pipeline
  uses: `.get`, truthiness, iteration, `int()`, `dict.update`.
- `retrieval.dfy` (`Retrieval`): `retrieve_datasets`. The imperative loop is
  `RetrieveDatasets`, proved equal to the recursive specification `Retrieve`.
- `citations.dfy` (`Citations`): `fetch_citation_count` and
  `fetch_citation_details`.
- `scopus.dfy` (`Scopus`): `fetch_scopus_info` and `extract_scopus_info`.
- `pipeline.dfy` (`Pipeline`): `main`. The two loops are the methods `Run` and
  `EnrichCitations`, proved equal to the specification functions `Pipeline` and
  `EnrichedCitations`.

Three behaviours of the code shape the model:

- The count is not normalised to a non-negative number. `int(count)` is
  returned as it is, and the filter keeps any negative count.
- Nothing catches an exception raised during the run, so no file is written.
- A 200 response whose body is falsy (`null`, `{}`, `[]`) gets the fallback
  enrichment, exactly like a failed lookup.

## Model

| member | source | states |
|---|---|---|
| Retrieval.PageStep | src/retrieve_datasets.py:35-44 | A non-200 page ends the loop. A 200 body that is not a dict raises AttributeError. A dict body whose "data" is missing or falsy ends the loop. A non-empty "data" list extends the accumulation by exactly that list. Any exception is AttributeError exactly when the body is not a dict. |
| Retrieval.Gather | src/retrieve_datasets.py:24-45 | Past `maxPages` nothing is requested. An exception is that of some page in range whose step fails. Every record returned comes from the "data" list of some page in range. |
| Retrieval.Retrieve | src/retrieve_datasets.py:18-45 | With `max_pages` below 1 the result is []. An exception comes from a failing page among 1..`max_pages`. Every record returned comes from the "data" list of one of those pages. |
| Retrieval.RetrieveDatasets | src/retrieve_datasets.py:18-45 | The while loop returns exactly `Retrieve(pages, maxPages)`. It requests at most `maxPages` pages, numbered 1, 2, ... in order. |
| Retrieval.GatherUntilHalt | src/retrieve_datasets.py:22-45 | Suppose every page before page k yields records, and page k fails, is empty or lies past `maxPages`. Then the result is the concatenation, in page order, of the records of the earlier pages, and later pages are never consulted. |
| Retrieval.GatherUntilFail | src/retrieve_datasets.py:35-40 | If a page raises after earlier pages yielded records, the whole retrieval raises that exception and the records gathered so far are lost. |
| Citations.CitationCount | src/retrieve_datasets.py:47-62 | A non-200 status, an empty list and `null` each give 0. A bare number is returned as it is. A list whose first element is a dict holding "count" gives `int()` of that count. A list whose first element is anything else, and a dict body, raise TypeError. |
| Citations.CountIgnoresLaterEntries | src/retrieve_datasets.py:57-58 | The count of a non-empty list depends on its first element only. |
| Citations.DetailOf | src/retrieve_datasets.py:73-78 | A dict entry becomes a record with exactly the keys doi, creation, journal_sc and author_sc, in that order. Each value is the entry's citing, creation, journal_sc or author_sc value, or "" when that key is missing. A non-dict entry raises AttributeError. |
| Citations.DetailsOf | src/retrieve_datasets.py:72-80 | The comprehension succeeds exactly when every entry is a dict. It then keeps the number and order of the entries, each record being the detail of its entry. Otherwise it raises AttributeError. |
| Citations.CitationDetails | src/retrieve_datasets.py:64-84 | A non-200 status gives []. A list body gives the comprehension over its entries. Every record it returns has exactly the four detail keys. |
| Scopus.FetchScopusInfo | src/retrieve_datasets.py:86-100 | A 200 response yields its decoded body. Any other response yields a falsy value (None). |
| Scopus.TagOf | src/retrieve_datasets.py:111 | The tag is the value the area holds under "$" when it has that key, and "Not found" otherwise. |
| Scopus.SubjectTags | src/retrieve_datasets.py:110-111 | The tags keep the length and order of the subject areas. Each tag is the area's "$" value, or "Not found" when the area lacks "$". It raises AttributeError if some area is not a dict. |
| Scopus.ExtractScopusInfo | src/retrieve_datasets.py:102-118 | The result has exactly the keys title, abstract, subject_areas and use_dataset. title and abstract are the values at their nested paths, or "Not found". subject_areas is a list: [] when the path is missing, otherwise one tag per area, in order. use_dataset is always "". A non-dict body raises AttributeError. |
| Scopus.ExtractionSucceeds | src/retrieve_datasets.py:102-118 | The extraction raises nothing exactly when four things hold: the body is a dict; the response item, its coredata and its subject-areas are each a dict or missing; and the subject areas, if present, iterate over dicts only. |
| Scopus.FallbackIsEmptyExtraction | src/retrieve_datasets.py:154-158 | The fallback dict of a failed lookup is identical to what the extraction makes of `{}`. |
| PyJson.UpdateFresh | src/retrieve_datasets.py:156-158 | Updating a dict with distinct keys it does not hold appends them in order, leaving every existing key and value in place. |
| Pipeline.Retained | src/retrieve_datasets.py:140-142 | A count is kept iff it lies in 1..9 or is negative: 9 is kept, while 0 and 10 are dropped. |
| Pipeline.Enrichment | src/retrieve_datasets.py:153-158 | The merged dict always has the four enrichment keys. A failed or falsy lookup gives the fallback, which equals the extraction of `{}`. |
| Pipeline.EnrichmentOnSuccess | src/retrieve_datasets.py:153-156 | A 200 lookup with a truthy body merges exactly what the extraction makes of that body, and its exception if it raises. |
| Pipeline.Enriched | src/retrieve_datasets.py:152-158 | The update succeeds exactly when the enrichment does. For a detail with the four detail keys, the result is the detail followed by its enrichment: the detail keys keep their place, then come title, abstract, subject_areas and use_dataset. |
| Pipeline.MergeFresh | src/retrieve_datasets.py:156-158 | Updating a detail that has the four detail keys with an enrichment that has the four enrichment keys appends the enrichment. The merged keys are the detail keys followed by the enrichment keys. |
| Pipeline.DoiOf | src/retrieve_datasets.py:134 | Reading the DOI succeeds exactly when the dataset is a dict whose "attributes", if present, is a dict. Otherwise it raises AttributeError. |
| Pipeline.DoiAlongPath | src/retrieve_datasets.py:134 | The DOI read is the value at attributes/doi, or "" when either step is missing. |
| Pipeline.EnrichedCitations | src/retrieve_datasets.py:151-160 | One citation per fetched detail. |
| Pipeline.EnrichCitations | src/retrieve_datasets.py:151-160 | The inner for loop, which updates each detail and appends it, returns exactly `EnrichedCitations(details)`. |
| Pipeline.CitationsExtendDetails | src/retrieve_datasets.py:151-160 | Citation i is detail i with its enrichment appended. It keeps the detail's four keys first and in place, followed by title, abstract, subject_areas and use_dataset. Length and order follow the details. |
| Pipeline.RecordFor | src/retrieve_datasets.py:133-162 | A dataset that does not raise yields a record iff its DOI is truthy and its count c satisfies c != 0 and c < 10. The record is {doi: the dataset's DOI, citation_count: the fetched count, citations: the enriched citation details}, in that key order. Each citation has the four detail keys followed by the four enrichment keys. A count lookup that raises for a truthy DOI ends the run with that exception. |
| Pipeline.RecordOfParts | src/retrieve_datasets.py:133-162 | Conversely, a truthy DOI, a retained count and details enriched without an exception always yield the record built from those parts. |
| Pipeline.EnrichedRecords | src/retrieve_datasets.py:130-162 | There are at most as many records as datasets. Every record has the output shape: a truthy DOI, a retained count, and citations that each have the four detail keys followed by the four enrichment keys. |
| Pipeline.EnrichedRecordsAppend | src/retrieve_datasets.py:133-162 | Records follow dataset order. Processing a + b gives the records of a followed by those of b, and an exception in a ends the run. |
| Pipeline.SkipsFalsyDoi | src/retrieve_datasets.py:134-136 | A dataset with an empty or otherwise falsy DOI contributes nothing. |
| Pipeline.OutputPath | src/retrieve_datasets.py:165 | The path is "data/datasets_" + the query with every ' ' replaced by '_' + ".json". Its middle holds no space. |
| Pipeline.Pipeline | src/retrieve_datasets.py:120-171 | An empty retrieval writes nothing ("No datasets found"). An exception in the retrieval ends the run with that exception. Otherwise the run saves exactly the records of `EnrichedRecords` over the retrieved datasets, in dataset order, at `OutputPath(query)`, or ends with their exception. Every saved record has the output shape. |
| Pipeline.Run | src/retrieve_datasets.py:120-171 | `main`'s loops compute exactly `Pipeline(query, services)`. |
| Pipeline.ClimateDataScenario | src/retrieve_datasets.py:120-171 | For any APIs that give one dataset on page 1 and none on page 2, a count of 3, one citing work and a failed abstract lookup, a run for "climate data" saves one record to `data/datasets_climate_data.json`. Its one citation is the detail followed by title and abstract "Not found", subject_areas [] and use_dataset "". |

## Left out

- HTTP requests, headers, URL construction and the Scopus API key (`load_dotenv`, `os.getenv`) are not modelled. Each API is a function from the request's identifier or page number to a response. Network exceptions from `requests` are not modelled.
- `input()`, `tqdm` progress bars and every `print` are not modelled; they are console I/O.
- Directory creation and `json.dump` are not modelled; they are file-system I/O. The model returns the path and the records that would be written.
- `response.json()` failing on a body that is not JSON is not modelled. Bodies are given already decoded.
- JSON numbers are integers only, so `int()` truncating a float is not modelled. Python's parsing of an integer string is the parameter `intOfStr`.
- A dict is an ordered list of pairs, and lookup takes the first pair with the key. Decoded objects are assumed to have distinct keys, as a Python dict does.
- `detail.update(...)` mutates the dict in place. It is modelled as building the updated value. No alias of the detail is read afterwards, so nothing observable is lost.
- Scopus.ExtractScopusInfo: says nothing about subject areas given as a string or a dict. The source iterates those by character or by key.
- `src/datasets_from_datacite_by_query.py` is not part of this model. It prints fields of one search response and computes nothing.
