/** JSON values as Python's `json` module decodes them, and the few Python
    operations the exporters apply to them. */
module Json {
  import opened Outcome
  import Text

  /** A decoded JSON value. Numbers are Python integers; an object is a
      dictionary from member name to value. */
  datatype Json =
    | JNull
    | JBool(b: bool)
    | JNum(n: int)
    | JStr(s: string)
    | JArr(items: seq<Json>)
    | JObj(fields: map<string, Json>)

  /** Python's `str()`/`repr()` of a list or a dictionary. Its exact text is not
      part of the model: every operation that needs it takes one as a
      parameter, and every property holds whatever it returns. */
  type Renderer = Json -> string

  const EmptyObj: Json := JObj(map[])

  /** Python truthiness: None, False, 0, '', [] and {} are false. */
  predicate Truthy(j: Json)
  {
    match j
    case JNull => false
    case JBool(b) => b
    case JNum(n) => n != 0
    case JStr(s) => s != ""
    case JArr(items) => items != []
    case JObj(fields) => fields != map[]
  }

  /** Python `str(j)`: exact for None, booleans, integers and strings; lists and
      dictionaries go to `repr`. */
  function Str(j: Json, repr: Renderer): (r: string)
    ensures j.JStr? ==> r == j.s
    ensures j.JNull? ==> r == "None"
  {
    match j
    case JNull => "None"
    case JBool(b) => if b then "True" else "False"
    case JNum(n) => Text.IntToString(n)
    case JStr(s) => s
    case _ => repr(j)
  }

  /** Python `str(x)` is the empty string only for the empty string itself. */
  lemma {:induction false} StrEmpty(j: Json, repr: Renderer)
    requires !j.JArr? && !j.JObj?
    ensures Str(j, repr) == "" <==> j == JStr("")
  {
  }

  /** The entry for `key`, or `default` when there is none. */
  function GetOr(m: map<string, Json>, key: string, default: Json): Json
  {
    if key in m then m[key] else default
  }

  /** Python `j.get(key, default)`: raises AttributeError unless `j` is a
      dictionary. */
  function Get(j: Json, key: string, default: Json): (r: Result<Json>)
    ensures r.Ok? <==> j.JObj?
    ensures r.Ok? ==> r.value == GetOr(j.fields, key, default)
  {
    match j
    case JObj(fields) => Ok(GetOr(fields, key, default))
    case _ => Raised
  }

  /** The null-safe projection `x.get(key, {}).get(prop, '') if x.get(key) else ''`:
      `''` when the entry is missing or falsy; it raises only when `x` is not a
      dictionary or the entry is truthy and not a dictionary. */
  function NullSafeGet(x: Json, key: string, prop: string): (r: Result<Json>)
    ensures r.Ok? <==> x.JObj? && (!Truthy(GetOr(x.fields, key, JNull)) || GetOr(x.fields, key, JNull).JObj?)
    ensures r.Ok? && !Truthy(GetOr(x.fields, key, JNull)) ==> r.value == JStr("")
    ensures r.Ok? && Truthy(GetOr(x.fields, key, JNull)) ==> r.value == GetOr(x.fields[key].fields, prop, JStr(""))
  {
    var v :- Get(x, key, JNull);
    if Truthy(v) then Get(v, prop, JStr("")) else Ok(JStr(""))
  }

  /** Python `j[key]` with a string key: raises unless `j` is a dictionary that
      has `key` (KeyError, or TypeError on a list or a string). */
  function Subscript(j: Json, key: string): (r: Result<Json>)
    ensures r.Ok? <==> j.JObj? && key in j.fields
    ensures r.Ok? ==> r.value == j.fields[key]
  {
    if j.JObj? && key in j.fields then Ok(j.fields[key]) else Raised
  }

  /** Python `j[0]`: the first element of a non-empty list. A dictionary raises
      KeyError (JSON keys are strings) and an empty list IndexError; indexing a
      non-empty string gives a one-character string, which every caller here
      then calls `.get` on and so raises as well, so it is folded into Raised. */
  function First(j: Json): (r: Result<Json>)
    ensures r.Ok? <==> j.JArr? && j.items != []
  {
    if j.JArr? && j.items != [] then Ok(j.items[0]) else Raised
  }

  /** What a `for` loop over `j` yields: the elements of a list, the
      characters of a string, nothing for an empty dictionary. Iterating a
      non-empty dictionary yields its keys in insertion order, which a `map`
      does not keep; it is modelled as raising. The loops over versions,
      issues, fields and fix versions index or call `.get` on each key, which
      raises in Python too; `', '.join` of such a dictionary, which joins its
      keys, is the one use where the model raises and Python does not. */
  function Elements(j: Json): (r: Result<seq<Json>>)
    ensures j.JArr? ==> r == Ok(j.items)
    ensures r.Ok? ==> j.JArr? || j.JStr? || j == EmptyObj
  {
    match j
    case JArr(items) => Ok(items)
    case JStr(s) => Ok(seq(|s|, i requires 0 <= i < |s| => JStr([s[i]])))
    case JObj(fields) => if fields == map[] then Ok([]) else Raised
    case _ => Raised
  }

  /** The strings of a sequence of values, or Raised if one is not a string. */
  function AllStrings(items: seq<Json>): (r: Result<seq<string>>)
    ensures r.Ok? <==> forall i :: 0 <= i < |items| ==> items[i].JStr?
    ensures r.Ok? ==> |r.value| == |items| && forall i :: 0 <= i < |items| ==> r.value[i] == items[i].s
  {
    if items == [] then Ok([])
    else if !items[0].JStr? then Raised
    else
      var rest :- AllStrings(items[1..]);
      Ok([items[0].s] + rest)
  }

  /** The contents of values that are all strings. */
  function StringsOf(items: seq<Json>): (r: seq<string>)
    requires forall i :: 0 <= i < |items| ==> items[i].JStr?
    ensures |r| == |items| && forall i :: 0 <= i < |items| ==> r[i] == items[i].s
  {
    seq(|items|, i requires 0 <= i < |items| => items[i].s)
  }

  /** Python `sep.join(j)` over the elements of `j`: TypeError unless every
      element is a string. */
  function JoinJson(sep: string, j: Json): (r: Result<string>)
    ensures j.JArr? && (forall i :: 0 <= i < |j.items| ==> j.items[i].JStr?) ==> r == Ok(Text.Join(sep, StringsOf(j.items)))
  {
    var items :- Elements(j);
    var strs :- AllStrings(items);
    assert strs == StringsOf(items);
    Ok(Text.Join(sep, strs))
  }

  /** `[x.get(key, default) for x in items]`. */
  function GetEach(items: seq<Json>, key: string, default: Json): (r: Result<seq<Json>>)
    ensures r.Ok? <==> forall i :: 0 <= i < |items| ==> items[i].JObj?
    ensures r.Ok? ==> |r.value| == |items|
    ensures r.Ok? ==> forall i :: 0 <= i < |items| ==> Get(items[i], key, default) == Ok(r.value[i])
  {
    if items == [] then Ok([])
    else
      var head :- Get(items[0], key, default);
      var rest :- GetEach(items[1..], key, default);
      Ok([head] + rest)
  }

  /** `[x[key] for x in items]`. */
  function SubscriptEach(items: seq<Json>, key: string): (r: Result<seq<Json>>)
    ensures r.Ok? <==> forall i :: 0 <= i < |items| ==> items[i].JObj? && key in items[i].fields
    ensures r.Ok? ==> |r.value| == |items|
    ensures r.Ok? ==> forall i :: 0 <= i < |items| ==> r.value[i] == items[i].fields[key]
  {
    if items == [] then Ok([])
    else
      var head :- Subscript(items[0], key);
      var rest :- SubscriptEach(items[1..], key);
      Ok([head] + rest)
  }
}
