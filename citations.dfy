/** The two citation-index lookups: `fetch_citation_count`, which normalises a
    polymorphic count response to an integer, and `fetch_citation_details`,
    which reshapes each citing entry into a fixed four-key record. */
module Citations {
  import opened PyJson

  /** `fetch_citation_count(doi)`, given the response to the count request.
      A failed request counts as 0; so do an empty list and `null`.  A list
      whose first element is a dict holding "count" yields that count.  Any
      other response goes through `int()`: a number is itself, a boolean 0 or
      1, a string whatever `intOfStr` makes of it.  A list whose first element
      is not such a dict raises TypeError, whichever of `in`, the subscript
      or `int(list)` raises it. */
  function CitationCount(resp: Response, intOfStr: string -> Option<int>): (r: Result<int>)
    ensures resp.status != 200 ==> r == Ok(0)
    ensures resp.status == 200 && resp.body == Arr([]) ==> r == Ok(0)
    ensures resp.status == 200 && resp.body == Null ==> r == Ok(0)
    ensures resp.status == 200 && resp.body.Num? ==> r == Ok(resp.body.n)
    ensures resp.status == 200 && resp.body.Arr? && resp.body.items != [] ==>
              (match resp.body.items[0]
               case Obj(first) =>
                 (match Lookup(first, "count")
                  case Some(c) => r == ToInt(c, intOfStr)
                  case None => r == Raise(TypeError))
               case _ => r == Raise(TypeError))
    ensures resp.status == 200 && resp.body.Obj? ==> r == Raise(TypeError)
  {
    if resp.status == 200 then
      var count := resp.body;
      if count.Arr? && |count.items| == 0 then Ok(0)
      else if count.Arr? && |count.items| > 0 && count.items[0].Obj? && "count" in Keys(count.items[0].fields) then
        ToInt(Get(count.items[0].fields, "count", Null), intOfStr)
      else if count.Null? then Ok(0)
      else ToInt(count, intOfStr)
    else
      Ok(0)
  }

  /** The count read from a non-empty list depends on its first element
      alone: later elements are never consulted. */
  lemma CountIgnoresLaterEntries(status: int, first: Json, rest1: seq<Json>, rest2: seq<Json>, intOfStr: string -> Option<int>)
    ensures CitationCount(Response(status, Arr([first] + rest1)), intOfStr)
         == CitationCount(Response(status, Arr([first] + rest2)), intOfStr)
  {
  }

  /** The keys of a citation detail, in the order the record is built. */
  const DetailKeys: seq<string> := ["doi", "creation", "journal_sc", "author_sc"]

  /** The entry key each detail key is read from. */
  const SourceKeys: seq<string> := ["citing", "creation", "journal_sc", "author_sc"]

  /** `rec` is the detail record of `entry`: exactly the four detail keys,
      in order, each holding the value of its source key in `entry`, or ""
      where `entry` lacks it. */
  ghost predicate IsDetailOf(entry: Fields, rec: Fields) {
    && Keys(rec) == DetailKeys
    && forall i :: 0 <= i < |rec| ==>
         rec[i].1 == (match Lookup(entry, SourceKeys[i]) case Some(v) => v case None => Str(""))
  }

  /** The record the comprehension builds from one entry.  Only a dict has
      `get`, so any other entry raises AttributeError. */
  function DetailOf(entry: Json): (r: Result<Fields>)
    ensures r.Ok? <==> entry.Obj?
    ensures r.Raise? ==> r.error == AttributeError
    ensures r.Ok? ==> IsDetailOf(entry.fields, r.value)
  {
    if entry.Obj? then
      var e := entry.fields;
      Ok([("doi", Get(e, "citing", Str(""))), ("creation", Get(e, "creation", Str(""))),
          ("journal_sc", Get(e, "journal_sc", Str(""))), ("author_sc", Get(e, "author_sc", Str("")))])
    else
      Raise(AttributeError)
  }

  /** The list comprehension over the entries: one record per entry, in
      order, or the AttributeError of the first entry that is not a dict. */
  function DetailsOf(entries: seq<Json>): (r: Result<seq<Fields>>)
    ensures r.Ok? <==> forall i :: 0 <= i < |entries| ==> entries[i].Obj?
    ensures r.Raise? ==> r.error == AttributeError
    ensures r.Ok? ==> |r.value| == |entries|
    ensures r.Ok? ==> forall i :: 0 <= i < |entries| ==> IsDetailOf(entries[i].fields, r.value[i])
  {
    if entries == [] then Ok([])
    else
      var first :- DetailOf(entries[0]);
      var rest :- DetailsOf(entries[1..]);
      Ok([first] + rest)
  }

  /** `fetch_citation_details(doi)`, given the response to the details
      request: [] when the request failed, otherwise one record per element
      the body iterates over. */
  function CitationDetails(resp: Response): (r: Result<seq<Fields>>)
    ensures resp.status != 200 ==> r == Ok([])
    ensures resp.status == 200 && resp.body.Arr? ==> r == DetailsOf(resp.body.items)
    ensures r.Ok? ==> forall i :: 0 <= i < |r.value| ==> Keys(r.value[i]) == DetailKeys
  {
    if resp.status == 200 then
      var entries :- Iter(resp.body);
      DetailsOf(entries)
    else
      Ok([])
  }
}
