/** JSON values as Python's json module decodes them, HTTP responses carrying
    them, and the handful of dict, list and builtin operations the pipeline
    applies to them, with the exceptions those operations raise on the wrong
    shape. */
module PyJson {

  datatype Option<T> = None | Some(value: T)

  /** The exceptions a malformed response shape makes Python raise.  The
      pipeline catches none of them. */
  datatype PyError = TypeError | AttributeError | ValueError

  /** The outcome of a Python expression: a value, or a raised exception. */
  datatype Result<T> = Ok(value: T) | Raise(error: PyError) {
    predicate IsFailure() { Raise? }
    function PropagateFailure<U>(): Result<U> requires Raise? { Raise(error) }
    function Extract(): T requires Ok? { value }
  }

  /** A decoded JSON document.  Numbers are integers; an object keeps its
      keys in insertion order, as a Python dict does. */
  datatype Json =
    | Null
    | Bool(b: bool)
    | Num(n: int)
    | Str(s: string)
    | Arr(items: seq<Json>)
    | Obj(fields: seq<(string, Json)>)

  /** The key/value pairs of a dict, in insertion order. */
  type Fields = seq<(string, Json)>

  /** An HTTP response: its status code and its decoded body. */
  datatype Response = Response(status: int, body: Json)

  function Keys(d: Fields): seq<string> {
    seq(|d|, i requires 0 <= i < |d| => d[i].0)
  }

  predicate Distinct(ks: seq<string>) {
    forall i, j :: 0 <= i < j < |ks| ==> ks[i] != ks[j]
  }

  /** The value stored under `k`, if any. */
  function Lookup(d: Fields, k: string): (r: Option<Json>)
    ensures r.None? <==> k !in Keys(d)
  {
    if d == [] then None
    else
      assert Keys(d) == [d[0].0] + Keys(d[1..]);
      if d[0].0 == k then Some(d[0].1) else Lookup(d[1..], k)
  }

  function OrDefault(o: Option<Json>, default: Json): Json {
    match o
    case Some(v) => v
    case None => default
  }

  /** `d.get(k, default)` on a dict. */
  function Get(d: Fields, k: string, default: Json): Json {
    OrDefault(Lookup(d, k), default)
  }

  /** The value reached by following `path` through nested dicts, if every
      step exists. */
  function At(j: Json, path: seq<string>): Option<Json>
    decreases |path|
  {
    if path == [] then Some(j)
    else if j.Obj? then
      match Lookup(j.fields, path[0])
      case Some(v) => At(v, path[1..])
      case None => None
    else None
  }

  /** One step along a path through a dict. */
  lemma AtStep(j: Json, k: string, rest: seq<string>)
    requires j.Obj?
    ensures At(j, [k] + rest) == match Lookup(j.fields, k) case Some(v) => At(v, rest) case None => None
  {
    assert ([k] + rest)[1..] == rest;
  }

  /** `j.get(k, default)` on any value: only a dict has `get`. */
  function DictGet(j: Json, k: string, default: Json): (r: Result<Json>)
    ensures r.Ok? <==> j.Obj?
    ensures r.Raise? ==> r.error == AttributeError
  {
    if j.Obj? then Ok(Get(j.fields, k, default)) else Raise(AttributeError)
  }

  /** Python truthiness: `if j:`. */
  predicate Truthy(j: Json) {
    match j
    case Null => false
    case Bool(b) => b
    case Num(n) => n != 0
    case Str(s) => s != ""
    case Arr(items) => items != []
    case Obj(fields) => fields != []
  }

  /** The elements `for x in j` visits: a list's items, a string's characters,
      a dict's keys; iterating over anything else raises TypeError. */
  function Iter(j: Json): (r: Result<seq<Json>>)
    ensures r.Ok? <==> (j.Arr? || j.Str? || j.Obj?)
    ensures r.Ok? ==> (r.value == [] <==> !Truthy(j))
  {
    match j
    case Arr(items) => Ok(items)
    case Str(s) => Ok(seq(|s|, i requires 0 <= i < |s| => Str([s[i]])))
    case Obj(fields) => Ok(seq(|fields|, i requires 0 <= i < |fields| => Str(fields[i].0)))
    case _ => Raise(TypeError)
  }

  /** Python's `int(j)`.  `intOfStr` stands for the builtin's parsing of a
      string: Some(n) for a string it accepts, None where it raises
      ValueError. */
  function ToInt(j: Json, intOfStr: string -> Option<int>): (r: Result<int>)
    ensures j.Num? ==> r == Ok(j.n)
    ensures (j.Null? || j.Arr? || j.Obj?) ==> r == Raise(TypeError)
  {
    match j
    case Num(n) => Ok(n)
    case Bool(b) => Ok(if b then 1 else 0)
    case Str(s) =>
      (match intOfStr(s)
       case Some(n) => Ok(n)
       case None => Raise(ValueError))
    case _ => Raise(TypeError)
  }

  /** `d[k] = v`: replaces the value of an existing key in its place, or
      appends a new key at the end. */
  function Put(d: Fields, k: string, v: Json): Fields {
    if d == [] then [(k, v)]
    else if d[0].0 == k then [(k, v)] + d[1..]
    else [d[0]] + Put(d[1..], k, v)
  }

  /** `d.update(e)`: `d[k] = v` for every pair of `e`, in order. */
  function Update(d: Fields, e: Fields): Fields
    decreases |e|
  {
    if e == [] then d else Update(Put(d, e[0].0, e[0].1), e[1..])
  }

  lemma {:induction false} KeysAppend(d: Fields, e: Fields)
    ensures Keys(d + e) == Keys(d) + Keys(e)
  {
    assert |Keys(d + e)| == |Keys(d) + Keys(e)|;
    forall i | 0 <= i < |d + e|
      ensures Keys(d + e)[i] == (Keys(d) + Keys(e))[i]
    {
    }
  }

  /** Setting a key the dict does not hold appends it. */
  lemma {:induction false} PutFresh(d: Fields, k: string, v: Json)
    requires k !in Keys(d)
    ensures Put(d, k, v) == d + [(k, v)]
  {
    if d != [] {
      assert Keys(d) == [d[0].0] + Keys(d[1..]);
      PutFresh(d[1..], k, v);
      assert [d[0]] + (d[1..] + [(k, v)]) == d + [(k, v)];
    }
  }

  /** Updating with distinct keys the dict does not hold appends them in
      order: nothing already in `d` moves or changes. */
  lemma {:induction false} UpdateFresh(d: Fields, e: Fields)
    requires Distinct(Keys(e))
    requires forall k :: k in Keys(e) ==> k !in Keys(d)
    ensures Update(d, e) == d + e
    decreases |e|
  {
    if e != [] {
      assert Keys(e)[0] == e[0].0;
      PutFresh(d, e[0].0, e[0].1);
      var d' := d + [(e[0].0, e[0].1)];
      KeysAppend(d, [(e[0].0, e[0].1)]);
      assert Keys(e) == [e[0].0] + Keys(e[1..]);
      forall k | k in Keys(e[1..]) ensures k !in Keys(d') {
        var j :| 0 <= j < |Keys(e[1..])| && Keys(e[1..])[j] == k;
        assert Keys(e)[j + 1] == k;
      }
      assert Distinct(Keys(e[1..])) by {
        forall i, j | 0 <= i < j < |Keys(e[1..])| ensures Keys(e[1..])[i] != Keys(e[1..])[j] {
          assert Keys(e)[i + 1] == Keys(e[1..])[i];
          assert Keys(e)[j + 1] == Keys(e[1..])[j];
        }
      }
      UpdateFresh(d', e[1..]);
      assert d' + e[1..] == d + e;
    }
  }

  /** The accumulation `acc` in front of whatever `rest` yields; an
      exception in `rest` discards the accumulation. */
  function Prepend<T>(acc: seq<T>, rest: Result<seq<T>>): (r: Result<seq<T>>)
    ensures r.Ok? <==> rest.Ok?
  {
    match rest
    case Ok(xs) => Ok(acc + xs)
    case Raise(e) => Raise(e)
  }

  lemma PrependNothing<T>(rest: Result<seq<T>>)
    ensures Prepend([], rest) == rest
  {
    if rest.Ok? {
      assert [] + rest.value == rest.value;
    }
  }

  lemma PrependTwice<T>(acc: seq<T>, more: seq<T>, rest: Result<seq<T>>)
    ensures Prepend(acc, Prepend(more, rest)) == Prepend(acc + more, rest)
  {
    if rest.Ok? {
      assert acc + (more + rest.value) == (acc + more) + rest.value;
    }
  }
}
