/** JSON documents as the Python code handles them (the result of `json.loads`, the
    argument of `json.dumps`), with Python's truthiness and the encoding of typed lists. */
module JsonValues {
  import opened Wrappers

  /** A JSON value; floats are not modelled. */
  datatype Json =
    | JNull
    | JBool(b: bool)
    | JInt(n: int)
    | JString(s: string)
    | JArray(items: seq<Json>)
    | JObject(fields: map<string, Json>)

  /** Python's `bool(v)` for the decoded value: None, False, 0, "", [] and {} are false. */
  predicate Truthy(j: Json)
  {
    match j
    case JNull => false
    case JBool(b) => b
    case JInt(n) => n != 0
    case JString(s) => s != ""
    case JArray(items) => items != []
    case JObject(fields) => fields != map[]
  }

  /** `if params:` for a parameter that may be left out (None) or be a value. */
  predicate Given(params: Option<Json>)
  {
    params.Some? && Truthy(params.value)
  }

  /** Decodes a JSON array whose items are all strings. */
  function AsStrings(j: Json): Option<seq<string>>
  {
    match j
    case JArray(items) => StringItems(items)
    case _ => None
  }

  function StringItems(items: seq<Json>): Option<seq<string>>
  {
    if items == [] then Some([])
    else if !items[0].JString? then None
    else
      match StringItems(items[1..])
      case None => None
      case Some(rest) => Some([items[0].s] + rest)
  }

  /** A Python list of strings as a JSON array; decoding it gives the list back. */
  function Strings(xs: seq<string>): (j: Json)
    ensures j.JArray? && |j.items| == |xs|
    ensures AsStrings(j) == Some(xs)
  {
    JArray(StringJsons(xs))
  }

  function StringJsons(xs: seq<string>): (items: seq<Json>)
    ensures |items| == |xs|
    ensures StringItems(items) == Some(xs)
  {
    if xs == [] then []
    else
      var items := [JString(xs[0])] + StringJsons(xs[1..]);
      assert items[1..] == StringJsons(xs[1..]);
      assert [xs[0]] + xs[1..] == xs;
      items
  }

  /** Decodes a JSON array whose items are all integers. */
  function AsInts(j: Json): Option<seq<int>>
  {
    match j
    case JArray(items) => IntItems(items)
    case _ => None
  }

  function IntItems(items: seq<Json>): Option<seq<int>>
  {
    if items == [] then Some([])
    else if !items[0].JInt? then None
    else
      match IntItems(items[1..])
      case None => None
      case Some(rest) => Some([items[0].n] + rest)
  }

  /** A Python list of ints as a JSON array; decoding it gives the list back. */
  function Ints(xs: seq<int>): (j: Json)
    ensures j.JArray? && |j.items| == |xs|
    ensures AsInts(j) == Some(xs)
  {
    JArray(IntJsons(xs))
  }

  function IntJsons(xs: seq<int>): (items: seq<Json>)
    ensures |items| == |xs|
    ensures IntItems(items) == Some(xs)
  {
    if xs == [] then []
    else
      var items := [JInt(xs[0])] + IntJsons(xs[1..]);
      assert items[1..] == IntJsons(xs[1..]);
      assert [xs[0]] + xs[1..] == xs;
      items
  }
}
