/** The abstract-retrieval lookup: `fetch_scopus_info`, and
    `extract_scopus_info`, which digs the title, the abstract and the
    subject-area tags out of the nested response, with defaults for whatever
    is missing. */
module Scopus {
  import opened PyJson

  const NotFound: Json := Str("Not found")

  /** The keys of the enrichment dict, in the order it is built. */
  const InfoKeys: seq<string> := ["title", "abstract", "subject_areas", "use_dataset"]

  /** The dict merged into a citation when the lookup fails. */
  const Fallback: Fields :=
    [("title", NotFound), ("abstract", NotFound), ("subject_areas", Arr([])), ("use_dataset", Str(""))]

  const Root: string := "abstracts-retrieval-response"
  const TitlePath: seq<string> := ["abstracts-retrieval-response", "coredata", "dc:title"]
  const AbstractPath: seq<string> := ["abstracts-retrieval-response", "coredata", "dc:description"]
  const SubjectAreasPath: seq<string> := ["abstracts-retrieval-response", "subject-areas", "subject-area"]

  /** `fetch_scopus_info(doi)`, given the response: the decoded body on
      status 200, `None` otherwise. */
  function FetchScopusInfo(resp: Response): (r: Json)
    ensures resp.status == 200 ==> r == resp.body
    ensures resp.status != 200 ==> !Truthy(r)
  {
    if resp.status == 200 then resp.body else Null
  }

  /** The tag of one subject area, `subject.get('$', 'Not found')`, spelled
      with `Lookup`. */
  function TagOf(area: Fields): (r: Json)
    ensures "$" in Keys(area) ==> Lookup(area, "$") == Some(r)
    ensures "$" !in Keys(area) ==> r == NotFound
  {
    match Lookup(area, "$")
    case Some(v) => v
    case None => NotFound
  }

  /** The comprehension over the subject areas: one tag per area, in order,
      or the AttributeError of the first area that is not a dict. */
  function SubjectTags(areas: seq<Json>): (r: Result<seq<Json>>)
    ensures r.Ok? <==> forall i :: 0 <= i < |areas| ==> areas[i].Obj?
    ensures r.Raise? ==> r.error == AttributeError
    ensures r.Ok? ==> |r.value| == |areas|
    ensures r.Ok? ==> forall i :: 0 <= i < |areas| ==> r.value[i] == TagOf(areas[i].fields)
  {
    if areas == [] then Ok([])
    else
      var first :- DictGet(areas[0], "$", NotFound);
      var rest :- SubjectTags(areas[1..]);
      Ok([first] + rest)
  }

  /** A step of a lookup path that `.get(key, {})` can take further: missing,
      or a dict. */
  ghost predicate DictOrAbsent(o: Option<Json>) {
    o.None? || o.value.Obj?
  }

  /** A subject-area value the comprehension can turn into tags: missing, or
      iterable with only dicts among its elements. */
  ghost predicate TaggableOrAbsent(o: Option<Json>) {
    o.None? || (Iter(o.value).Ok? && forall x :: x in Iter(o.value).value ==> x.Obj?)
  }

  /** `extract_scopus_info(scopus_data)`.  `item.get('coredata', {})` is
      evaluated twice in the source; the second evaluation yields the same
      value, so the model reads it once. */
  function ExtractScopusInfo(data: Json): (r: Result<Fields>)
    ensures !data.Obj? ==> r == Raise(AttributeError)
    ensures r.Ok? ==> |r.value| == 4 && Keys(r.value) == InfoKeys
    ensures r.Ok? ==> r.value[0].1 == OrDefault(At(data, TitlePath), NotFound)
    ensures r.Ok? ==> r.value[1].1 == OrDefault(At(data, AbstractPath), NotFound)
    ensures r.Ok? ==> r.value[3].1 == Str("")
    ensures r.Ok? ==> r.value[2].1.Arr?
    ensures r.Ok? ==>
              (match At(data, SubjectAreasPath)
               case None => r.value[2].1.items == []
               case Some(areas) =>
                 areas.Arr? ==>
                   && |r.value[2].1.items| == |areas.items|
                   && forall i :: 0 <= i < |areas.items| ==>
                        areas.items[i].Obj? && r.value[2].1.items[i] == TagOf(areas.items[i].fields))
  {
    var item :- DictGet(data, "abstracts-retrieval-response", Obj([]));
    var coredata :- DictGet(item, "coredata", Obj([]));
    if !coredata.Obj? then Raise(AttributeError)
    else
      AtStep(data, Root, ["coredata", "dc:title"]);
      AtStep(data, Root, ["coredata", "dc:description"]);
      AtStep(data, Root, ["subject-areas", "subject-area"]);
      var title := Get(coredata.fields, "dc:title", NotFound);
      var abstractText := Get(coredata.fields, "dc:description", NotFound);
      var holder := Get(item.fields, "subject-areas", Obj([]));
      if !holder.Obj? then Raise(AttributeError)
      else
        var areas := Get(holder.fields, "subject-area", Arr([]));
        var list :- Iter(areas);
        var subjects :- SubjectTags(list);
        Ok([("title", title), ("abstract", abstractText), ("subject_areas", Arr(subjects)), ("use_dataset", Str(""))])
  }

  /** The extraction's own steps, each of which must not raise: every
      `.get` is applied to a dict, and the subject areas iterate over
      dicts. */
  ghost predicate StepsSucceed(data: Json) {
    && data.Obj?
    && var item := Get(data.fields, Root, Obj([]));
    && item.Obj?
    && Get(item.fields, "coredata", Obj([])).Obj?
    && var holder := Get(item.fields, "subject-areas", Obj([]));
    && holder.Obj?
    && var list := Iter(Get(holder.fields, "subject-area", Arr([])));
    && list.Ok?
    && SubjectTags(list.value).Ok?
  }

  lemma ExtractionSteps(data: Json)
    ensures ExtractScopusInfo(data).Ok? <==> StepsSucceed(data)
  {
  }

  /** The same condition, read along the paths of the response. */
  lemma StepsAlongPaths(data: Json)
    ensures StepsSucceed(data) <==>
              && data.Obj?
              && DictOrAbsent(At(data, [Root]))
              && DictOrAbsent(At(data, [Root, "coredata"]))
              && DictOrAbsent(At(data, [Root, "subject-areas"]))
              && TaggableOrAbsent(At(data, SubjectAreasPath))
  {
    if data.Obj? {
      var item := Get(data.fields, Root, Obj([]));
      AtStep(data, Root, []);
      if item.Obj? {
        assert SubjectAreasPath == [Root] + ["subject-areas", "subject-area"];
        AtStep(data, Root, ["coredata"]);
        AtStep(data, Root, ["subject-areas"]);
        AtStep(data, Root, ["subject-areas", "subject-area"]);
        AtStep(item, "coredata", []);
        AtStep(item, "subject-areas", []);
        AtStep(item, "subject-areas", ["subject-area"]);
        var holder := Get(item.fields, "subject-areas", Obj([]));
        if holder.Obj? {
          AtStep(holder, "subject-area", []);
          var areas := Get(holder.fields, "subject-area", Arr([]));
          if Iter(areas).Ok? {
            var list := Iter(areas).value;
            assert (forall i :: 0 <= i < |list| ==> list[i].Obj?) <==> (forall x :: x in list ==> x.Obj?);
          }
        }
      }
    }
  }

  /** The extraction succeeds exactly when every step it takes with
      `.get(key, {})` lands on a dict or is missing, and the subject areas,
      if present, iterate over dicts only. */
  lemma ExtractionSucceeds(data: Json)
    ensures ExtractScopusInfo(data).Ok? <==>
              && data.Obj?
              && DictOrAbsent(At(data, [Root]))
              && DictOrAbsent(At(data, [Root, "coredata"]))
              && DictOrAbsent(At(data, [Root, "subject-areas"]))
              && TaggableOrAbsent(At(data, SubjectAreasPath))
  {
    ExtractionSteps(data);
    StepsAlongPaths(data);
  }

  /** The fallback used when the lookup fails is exactly what the extraction
      makes of an empty response. */
  lemma FallbackIsEmptyExtraction()
    ensures ExtractScopusInfo(Obj([])) == Ok(Fallback)
  {
  }
}
